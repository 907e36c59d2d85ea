/** The in-memory store: objects, indexes and block states, and the block-marking rule.

    `Mark` is the specification of `MarkBlock` on values.  `MarkHistory` says what any sequence
    of successful calls amounts to: the indexes are the fold of the blocks' transactions at
    exactly the calls that take a block from Validated to Accepted.
 */
module MemStores {
  import opened Bytes
  import opened Objects
  import opened TxSets
  import opened Indexes

  const Unvalidated := 0
  const Validated := 1
  const Accepted := 2

  datatype Store = Store(objs: Objects, index: Index, marks: map<Cid, int>, last: Cid)

  function MarkOf(marks: map<Cid, int>, b: Cid): int {
    if b in marks then marks[b] else Unvalidated
  }

  /** The one edge at which a block is indexed. */
  predicate IsEdge(marks: map<Cid, int>, b: Cid, st: int) {
    MarkOf(marks, b) == Validated && st == Accepted
  }

  ghost function BlockTxs(k: Codec, objs: Objects, b: Cid): Option<map<Cid, Tx>> {
    match GetBlock(k, objs, b)
    case None => None
    case Some(block) => ReadAll(k, objs, block.txRoot)
  }

  lemma ReadAssertable(k: Codec, objs: Objects, root: Cid)
    requires Sound(k) && ReadAll(k, objs, root).Some?
    ensures AssertableTxs(ReadAll(k, objs, root).value)
  {
  }

  /** `MarkBlock` with the order in which the block's transaction map is visited.  The mark is
      set first, and stays set when the block cannot be indexed. */
  ghost function Mark(k: Codec, s: Store, b: Cid, st: int, order: seq<Cid>): (r: (Store, bool))
    requires Sound(k)
    requires IsEdge(s.marks, b, st) && BlockTxs(k, s.objs, b).Some? ==> IsOrder(order, BlockTxs(k, s.objs, b).value)
  {
    var marked := s.(marks := s.marks[b := st]);
    if !IsEdge(s.marks, b, st) then (marked, true)
    else if BlockTxs(k, s.objs, b).None? then (marked, false)
    else (marked.(index := Fold(s.index, BlockEntries(k, s.objs, b, order))), true)
  }

  ghost function BlockEntries(k: Codec, objs: Objects, b: Cid, order: seq<Cid>): (es: seq<Entry>)
    requires Sound(k) && BlockTxs(k, objs, b).Some? && IsOrder(order, BlockTxs(k, objs, b).value)
    ensures AllAssertable(es)
  {
    var txs := BlockTxs(k, objs, b).value;
    ReadAssertable(k, objs, GetBlock(k, objs, b).value.txRoot);
    OrderKeys(order, txs);
    EntriesOf(b, order, txs)
  }

  // --------------------------------------------------------------------------------------------
  // Whole histories of calls
  // --------------------------------------------------------------------------------------------

  datatype Call = MarkCall(block: Cid, state: int, order: seq<Cid>) | PutCall(data: Blob)

  /** The call can be made, and succeeds. */
  ghost predicate Works(k: Codec, s: Store, c: Call)
    requires Sound(k)
  {
    c.MarkCall? ==>
      && (IsEdge(s.marks, c.block, c.state) && BlockTxs(k, s.objs, c.block).Some? ==>
            IsOrder(c.order, BlockTxs(k, s.objs, c.block).value))
      && Mark(k, s, c.block, c.state, c.order).1
  }

  ghost function After(k: Codec, s: Store, c: Call): Store
    requires Sound(k) && Works(k, s, c)
  {
    match c
    case MarkCall(b, st, order) => Mark(k, s, b, st, order).0
    case PutCall(d) => s.(objs := s.objs[k.hash(d) := d])
  }

  /** The calls can be made one after the other and each of them succeeds. */
  ghost predicate Succeeds(k: Codec, s: Store, calls: seq<Call>)
    requires Sound(k)
    decreases |calls|
  {
    calls == [] || (Works(k, s, calls[0]) && Succeeds(k, After(k, s, calls[0]), calls[1..]))
  }

  ghost function CallAll(k: Codec, s: Store, calls: seq<Call>): Store
    requires Sound(k) && Succeeds(k, s, calls)
    decreases |calls|
  {
    if calls == [] then s else CallAll(k, After(k, s, calls[0]), calls[1..])
  }

  datatype Edge = Edge(block: Cid, order: seq<Cid>)

  function MarksAfter(marks: map<Cid, int>, c: Call): map<Cid, int> {
    if c.MarkCall? then marks[c.block := c.state] else marks
  }

  /** The calls that are Validated-to-Accepted edges, found from the block states alone. */
  function Edges(marks: map<Cid, int>, calls: seq<Call>): seq<Edge>
    decreases |calls|
  {
    if calls == [] then []
    else
      var c := calls[0];
      var rest := Edges(MarksAfter(marks, c), calls[1..]);
      if c.MarkCall? && c.block in marks && marks[c.block] == Validated && c.state == Accepted
      then [Edge(c.block, c.order)] + rest else rest
  }

  ghost predicate Indexable(k: Codec, objs: Objects, edges: seq<Edge>) {
    forall i :: 0 <= i < |edges| ==>
      BlockTxs(k, objs, edges[i].block).Some? && IsOrder(edges[i].order, BlockTxs(k, objs, edges[i].block).value)
  }

  ghost function HistoryOf(k: Codec, objs: Objects, edges: seq<Edge>): (es: seq<Entry>)
    requires Sound(k) && Indexable(k, objs, edges)
    ensures AllAssertable(es)
  {
    if edges == [] then []
    else BlockEntries(k, objs, edges[0].block, edges[0].order) + HistoryOf(k, objs, edges[1..])
  }

  lemma BlockTxsExtends(k: Codec, objs: Objects, more: Objects, b: Cid)
    requires Extends(objs, more) && BlockTxs(k, objs, b).Some?
    ensures BlockTxs(k, more, b) == BlockTxs(k, objs, b)
  {
    ReadExtends(k, objs, more, GetBlock(k, objs, b).value.txRoot);
  }

  /** After any sequence of successful calls, puts and marks in any order, the indexes are the fold of
      the transactions of the blocks at the edges, in call order, and the objects have only grown. */
  lemma {:induction false} MarkHistory(k: Codec, s: Store, calls: seq<Call>)
    requires Sound(k) && Addressed(k, s.objs) && Succeeds(k, s, calls)
    ensures var r, edges := CallAll(k, s, calls), Edges(s.marks, calls);
            && Addressed(k, r.objs) && Extends(s.objs, r.objs) && r.last == s.last
            && Indexable(k, r.objs, edges) && r.index == Fold(s.index, HistoryOf(k, r.objs, edges))
    decreases |calls|
  {
    if calls != [] {
      var c := calls[0];
      var s' := After(k, s, c);
      if c.PutCall? {
        PutExtends(k, s.objs, c.data);
      }
      MarkHistory(k, s', calls[1..]);
      if c.MarkCall? && IsEdge(s.marks, c.block, c.state) {
        EdgeFirst(k, s, c, CallAll(k, s, calls).objs, Edges(s'.marks, calls[1..]));
      }
    }
  }

  ghost predicate Marks(c: Call, b: Cid) {
    c.MarkCall? && c.block == b
  }

  lemma {:induction false} CallsLeave(k: Codec, s: Store, calls: seq<Call>, d: Bytes, b: Cid)
    requires Sound(k) && Succeeds(k, s, calls)
    ensures var r := CallAll(k, s, calls);
            && (Lookup(s.objs, k.hash(d)) == Some(d) ==> Lookup(r.objs, k.hash(d)) == Some(d))
            && ((forall j :: 0 <= j < |calls| ==> !Marks(calls[j], b)) ==> MarkOf(r.marks, b) == MarkOf(s.marks, b))
    decreases |calls|
  {
    if calls != [] {
      CallsLeave(k, After(k, s, calls[0]), calls[1..], d, b);
      assert forall j :: 0 <= j < |calls[1..]| ==> calls[1..][j] == calls[j + 1];
      assert MarkOf(After(k, s, calls[0]).marks, b) == MarkOf(s.marks, b) || Marks(calls[0], b);
    }
  }

  /** Whatever is called afterwards, an object that was put is there, and the mark of a block is that of
      the last call on it. */
  lemma {:induction false} CallsKept(k: Codec, s: Store, calls: seq<Call>, i: nat)
    requires Sound(k) && Succeeds(k, s, calls) && i < |calls|
    ensures var r := CallAll(k, s, calls);
            match calls[i]
            case PutCall(d) => Lookup(r.objs, k.hash(d)) == Some(d)
            case MarkCall(b, st, _) =>
              (forall j :: i < j < |calls| ==> !Marks(calls[j], b)) ==> MarkOf(r.marks, b) == st
    decreases |calls|
  {
    var s', rest := After(k, s, calls[0]), calls[1..];
    if i > 0 {
      assert rest[i - 1] == calls[i];
      assert forall j :: 0 <= j < |rest| ==> rest[j] == calls[j + 1];
      CallsKept(k, s', rest, i - 1);
    } else {
      match calls[0]
      case PutCall(d) => CallsLeave(k, s', rest, d, []);
      case MarkCall(b, st, _) =>
        CallsLeave(k, s', rest, [], b);
        assert forall j :: 0 <= j < |rest| ==> rest[j] == calls[j + 1];
    }
  }

  /** One more edge in front, seen from the objects as they are at the end. */
  lemma EdgeFirst(k: Codec, s: Store, c: Call, objs: Objects, rest: seq<Edge>)
    requires Sound(k) && c.MarkCall? && IsEdge(s.marks, c.block, c.state) && Works(k, s, c)
    requires Extends(s.objs, objs) && Indexable(k, objs, rest)
    ensures var edges := [Edge(c.block, c.order)] + rest;
            && Indexable(k, objs, edges)
            && Fold(After(k, s, c).index, HistoryOf(k, objs, rest)) == Fold(s.index, HistoryOf(k, objs, edges))
  {
    var edges := [Edge(c.block, c.order)] + rest;
    BlockTxsExtends(k, s.objs, objs, c.block);
    assert edges[1..] == rest;
    FoldAppend(s.index, BlockEntries(k, s.objs, c.block, c.order), HistoryOf(k, objs, rest));
  }

  /** What the indexes answer after the transactions of b have been applied in this order. */
  ghost predicate IndexedUnder(before: Index, b: Cid, order: seq<Cid>, txs: map<Cid, Tx>, after: Index)
    requires IsOrder(order, txs)
  {
    OrderKeys(order, txs);
    && (forall x :: Lookup(after.txBlock, x) == if x in txs then Some(b) else Lookup(before.txBlock, x))
    && (forall x :: Lookup(after.dids, x) == LastDid(before, EntriesOf(b, order, txs), x))
    && (forall x :: Lookup(after.nodes, x) == LastNode(before, EntriesOf(b, order, txs), x))
  }

  lemma FoldIndexes(ix: Index, b: Cid, order: seq<Cid>, txs: map<Cid, Tx>)
    requires IsOrder(order, txs) && AssertableTxs(txs) && forall c :: c in order ==> c in txs
    ensures IndexedUnder(ix, b, order, txs, Fold(ix, EntriesOf(b, order, txs)))
  {
    var es := EntriesOf(b, order, txs);
    forall x
      ensures Lookup(Fold(ix, es).txBlock, x) == if x in txs then Some(b) else Lookup(ix.txBlock, x)
      ensures Lookup(Fold(ix, es).dids, x) == LastDid(ix, es, x)
      ensures Lookup(Fold(ix, es).nodes, x) == LastNode(ix, es, x)
    {
      FoldMeaning(ix, es, x, x, x);
      BlockTx(ix, b, order, txs, x);
    }
  }

  /** Marking, by what was marked before: a Validated block that is marked Accepted and can be read is
      indexed under its CID; one that cannot be read is reported; anything else only marks. */
  lemma MarkMeaning(k: Codec, s: Store, b: Cid, st: int, order: seq<Cid>)
    requires Sound(k)
    requires BlockTxs(k, s.objs, b).Some? ==> IsOrder(order, BlockTxs(k, s.objs, b).value)
    ensures var (r, ok) := Mark(k, s, b, st, order);
            && r == s.(marks := s.marks[b := st], index := r.index)
            && if b in s.marks && s.marks[b] == Validated && st == Accepted then
                 && (ok <==> exists block, txs :: GetBlock(k, s.objs, b) == Some(block) &&
                               ReadAll(k, s.objs, block.txRoot) == Some(txs))
                 && (!ok ==> r.index == s.index)
                 && (ok ==> IndexedUnder(s.index, b, order, BlockTxs(k, s.objs, b).value, r.index))
               else ok && r.index == s.index
  {
    if IsEdge(s.marks, b, st) && BlockTxs(k, s.objs, b).Some? {
      var txs := BlockTxs(k, s.objs, b).value;
      ReadAssertable(k, s.objs, GetBlock(k, s.objs, b).value.txRoot);
      OrderKeys(order, txs);
      FoldIndexes(s.index, b, order, txs);
    }
  }

  /** Marked Validated and then Accepted. */
  ghost function OverEdge(k: Codec, s: Store, b: Cid, order: seq<Cid>): Store
    requires Sound(k) && BlockTxs(k, s.objs, b).Some? && IsOrder(order, BlockTxs(k, s.objs, b).value)
  {
    Mark(k, Mark(k, s, b, Validated, order).0, b, Accepted, order).0
  }

  /** Then the block's transactions, as read from its root, are indexed. */
  lemma ValidatedThenAccepted(k: Codec, s: Store, b: Cid, block: Block, txs: map<Cid, Tx>, order: seq<Cid>)
    requires Sound(k) && GetBlock(k, s.objs, b) == Some(block) && ReadAll(k, s.objs, block.txRoot) == Some(txs)
    requires IsOrder(order, txs)
    ensures BlockTxs(k, s.objs, b) == Some(txs) && IndexedUnder(s.index, b, order, txs, OverEdge(k, s, b, order).index)
    ensures Mark(k, s, b, Validated, order).1 && Mark(k, s, b, Validated, order).0.index == s.index
    ensures Mark(k, Mark(k, s, b, Validated, order).0, b, Accepted, order).1
  {
    MarkMeaning(k, s, b, Validated, order);
    MarkMeaning(k, Mark(k, s, b, Validated, order).0, b, Accepted, order);
  }

  /** A call that is not an edge, such as re-accepting a block, leaves every index as it was. */
  lemma ReacceptIndexesNothing(k: Codec, s: Store, b: Cid, order: seq<Cid>)
    requires Sound(k) && MarkOf(s.marks, b) == Accepted
    ensures Mark(k, s, b, Accepted, order) == (s, true)
  {
    assert s.marks[b := Accepted] == s.marks;
  }

  /** A block is indexed again only if a call has put it back to Validated: between two edges of
      one block lies such a call. */
  lemma {:induction false} SecondEdgeNeedsValidation(marks: map<Cid, int>, calls: seq<Call>, b: Cid)
    requires forall i :: 0 <= i < |calls| && calls[i].MarkCall? ==>
               !(calls[i].block == b && calls[i].state == Validated)
    ensures |EdgesOn(Edges(marks, calls), b)| <= if MarkOf(marks, b) == Validated then 1 else 0
    decreases |calls|
  {
    if calls != [] {
      var c := calls[0];
      SecondEdgeNeedsValidation(MarksAfter(marks, c), calls[1..], b);
      var rest := Edges(MarksAfter(marks, c), calls[1..]);
      if c.MarkCall? && IsEdge(marks, c.block, c.state) {
        assert ([Edge(c.block, c.order)] + rest)[1..] == rest;
      }
    }
  }

  function EdgesOn(edges: seq<Edge>, b: Cid): seq<Edge> {
    if edges == [] then []
    else if edges[0].block == b then [edges[0]] + EdgesOn(edges[1..], b)
    else EdgesOn(edges[1..], b)
  }

  // --------------------------------------------------------------------------------------------
  // The store itself
  // --------------------------------------------------------------------------------------------

  /** `sort.Strings` and `sort.Sort(cidList)`: the sorted list with the same elements. */
  function Insert(x: Bytes, s: seq<Bytes>): (r: seq<Bytes>)
    requires Sorted(s)
    ensures Sorted(r) && multiset(r) == multiset(s) + multiset{x}
  {
    if s == [] then [x]
    else if Less(s[0], x) then
      assert s == [s[0]] + s[1..];
      var t := Insert(x, s[1..]);
      HeadFirst(s[0], x, s[1..], t);
      [s[0]] + t
    else
      HeadSmallest(x, s);
      [x] + s
  }

  lemma HeadFirst(h: Bytes, x: Bytes, s: seq<Bytes>, t: seq<Bytes>)
    requires Less(h, x) && Sorted(t) && multiset(t) == multiset(s) + multiset{x}
    requires forall i :: 0 <= i < |s| ==> !Less(s[i], h)
    ensures Sorted([h] + t)
  {
    forall j | 0 <= j < |t| ensures !Less(t[j], h) {
      assert t[j] in multiset(t);
      if t[j] == x && Less(x, h) {
        LessTransitive(h, x, h);
        LessIrreflexive(h);
      }
    }
  }

  lemma HeadSmallest(x: Bytes, s: seq<Bytes>)
    requires s != [] && Sorted(s) && !Less(s[0], x)
    ensures Sorted([x] + s)
  {
    forall j | 0 <= j < |s| ensures !Less(s[j], x) {
      if Less(s[j], x) {
        LessTotal(s[0], x);
        if s[0] != x { LessTransitive(s[j], x, s[0]); }
      }
    }
  }

  function SortedOf(s: seq<Bytes>): (r: seq<Bytes>)
    ensures Sorted(r) && multiset(r) == multiset(s) && |r| == |s|
  {
    if s == [] then []
    else
      assert s == [s[0]] + s[1..];
      var r := Insert(s[0], SortedOf(s[1..]));
      assert |r| == |multiset(r)| == |multiset(s)|;
      r
  }

  class MemStore {
    const k: Codec
    var objects: Objects
    var txBlock: map<Cid, Cid>
    var nodes: map<Bytes, Cid>
    var dids: map<Bytes, Cid>
    var marks: map<Cid, int>
    var last: Cid
    ghost var puts: nat

    ghost predicate Valid()
      reads this
    {
      Sound(k) && Addressed(k, objects)
    }

    ghost function Snapshot(): Store
      reads this
    {
      Store(objects, Index(txBlock, nodes, dids), marks, last)
    }

    constructor (k: Codec)
      requires Sound(k)
      ensures Valid() && this.k == k && Snapshot() == Store(map[], EmptyIndex, map[], Undef)
    {
      this.k := k;
      objects, txBlock, nodes, dids, marks, last := map[], map[], map[], map[], map[], Undef;
      puts := 0;
    }

    /** `putObj`: the CID is the hash of the serialised object, and nothing stored is disturbed. */
    method PutObject(d: Blob) returns (c: Cid)
      requires Valid()
      modifies this`objects, this`puts
      ensures Valid() && puts == old(puts) + 1
      ensures c == k.hash(d) && objects == old(objects)[c := d]
      ensures Extends(old(objects), objects)
    {
      PutExtends(k, objects, d);
      c := k.hash(d);
      objects := objects[c := d];
      puts := puts + 1;
    }

    method AllTx(root: Cid) returns (r: Option<map<Cid, Tx>>)
      ensures r == ReadAll(k, objects, root)
    {
      r := AllTxs(k, objects, root);
    }

    /** `MarkBlock`, `indexBlockTx` and `applyTxs`.  The order reported is the one in which the
        transaction map happened to be visited. */
    method MarkBlock(b: Cid, st: int) returns (ok: bool, ghost order: seq<Cid>)
      requires Valid()
      modifies this`txBlock, this`nodes, this`dids, this`marks
      ensures Valid()
      ensures IsEdge(old(marks), b, st) && BlockTxs(k, objects, b).Some? ==>
                IsOrder(order, BlockTxs(k, objects, b).value)
      ensures (Snapshot(), ok) == Mark(k, old(Snapshot()), b, st, order)
      ensures marks == old(marks)[b := st]
      ensures !(b in old(marks) && old(marks)[b] == Validated && st == Accepted) || !ok ==>
                Snapshot().index == old(Snapshot().index)
      ensures b in old(marks) && old(marks)[b] == Validated && st == Accepted ==>
                && ok == BlockTxs(k, objects, b).Some?
                && (ok ==> IndexedUnder(old(Snapshot().index), b, order, BlockTxs(k, objects, b).value,
                                        Snapshot().index))
      ensures !(b in old(marks) && old(marks)[b] == Validated && st == Accepted) ==> ok
    {
      order := [];
      var c := MarkOf(marks, b);
      marks := marks[b := st];
      ok := true;
      if c == Validated && st == Accepted {
        var block := GetBlock(k, objects, b);
        if block.None? {
          return false, [];
        }
        var txs := AllTx(block.value.txRoot);
        if txs.None? {
          return false, [];
        }
        ReadAssertable(k, objects, block.value.txRoot);
        order := ApplyTxs(b, txs.value);
        FoldIndexes(old(Snapshot().index), b, order, txs.value);
      }
    }

    method ApplyTxs(b: Cid, txs: map<Cid, Tx>) returns (ghost order: seq<Cid>)
      requires AssertableTxs(txs)
      modifies this`txBlock, this`nodes, this`dids
      ensures IsOrder(order, txs) && forall c :: c in order ==> c in txs
      ensures Index(txBlock, nodes, dids) == Fold(old(Index(txBlock, nodes, dids)), EntriesOf(b, order, txs))
    {
      order := [];
      var todo := txs.Keys;
      while todo != {}
        invariant todo <= txs.Keys && NoDuplicates(order) && Elements(order) == txs.Keys - todo
        invariant forall c :: c in order ==> c in txs
        invariant Index(txBlock, nodes, dids) == Fold(old(Index(txBlock, nodes, dids)), EntriesOf(b, order, txs))
        decreases todo
      {
        var c :| c in todo;
        assert c !in Elements(order) && Elements(order + [c]) == Elements(order) + {c};
        EntriesAppend(b, order, c, txs);
        assert EntriesOf(b, order + [c], txs)[..|order|] == EntriesOf(b, order, txs);
        todo := todo - {c};
        order := order + [c];
        txBlock := txBlock[c := b];
        ApplyOne(c, txs[c]);
      }
    }

    /** `ApplyTx`. */
    method ApplyOne(id: Cid, t: Tx)
      requires Assertable(t)
      modifies this`nodes, this`dids
      ensures Index(txBlock, nodes, dids) == ApplyTx(old(Index(txBlock, nodes, dids)), id, t)
      ensures forall x :: Lookup(dids, x) == if DecidesDid(t, x) then Some(id) else Lookup(old(dids), x)
      ensures forall x :: Lookup(nodes, x) ==
                if !DecidesNode(t, x) then Lookup(old(nodes), x) else if t.action == ActionAdd then Some(id) else None
    {
      if t.kind == KindDid {
        dids := dids[t.data.document.id := id];
      } else if t.kind == KindNode {
        if t.action == ActionAdd {
          nodes := nodes[t.data.id := id];
        } else if t.action == ActionRevoke {
          nodes := nodes - {t.data.id};
        }
      }
    }

    /** `Nodes`: the node ids out of the map in any order, then sorted. */
    method Nodes() returns (n: seq<Bytes>)
      ensures StrictlySorted(n) && Elements(n) == nodes.Keys
    {
      n := [];
      var todo := nodes.Keys;
      while todo != {}
        invariant todo <= nodes.Keys && NoDuplicates(n) && Elements(n) == nodes.Keys - todo
        decreases todo
      {
        var id :| id in todo;
        assert id !in Elements(n) && Elements(n + [id]) == Elements(n) + {id};
        n := n + [id];
        todo := todo - {id};
      }
      CountedOnce(n);
      var sorted := SortedOf(n);
      SortedStrict(sorted, Elements(n));
      n := sorted;
    }

    /** `StartTest`: a new store with the same objects, indexes and marks, and no last block. */
    method StartTest() returns (t: MemStore)
      requires Valid()
      ensures fresh(t) && t.k == k && t.Valid()
      ensures t.Snapshot() == Snapshot().(last := Undef)
    {
      t := new MemStore(k);
      t.objects := objects;
      t.txBlock := txBlock;
      t.marks := marks;
      t.nodes := nodes;
      t.dids := dids;
    }
  }

  lemma SortedStrict(s: seq<Bytes>, elems: set<Bytes>)
    requires Sorted(s) && multiset(s) == multiset(elems)
    ensures StrictlySorted(s) && Elements(s) == elems
  {
    forall i, j | 0 <= i < j < |s| ensures Less(s[i], s[j]) {
      assert s == s[..i] + [s[i]] + s[i + 1..j] + [s[j]] + s[j + 1..];
      assert s[i] == s[j] ==> multiset(s)[s[i]] >= 2;
      assert multiset(elems)[s[i]] <= 1;
      LessTotal(s[i], s[j]);
    }
    forall x ensures x in Elements(s) <==> x in elems {
      assert x in s <==> x in multiset(s);
    }
  }

  // --------------------------------------------------------------------------------------------
  // The queue loop of `AllTx`
  // --------------------------------------------------------------------------------------------

  /** The queue loop terminates on every store and decides `ReadAll`. */
  method AllTxs(k: Codec, objects: Objects, root: Cid) returns (r: Option<map<Cid, Tx>>)
    ensures r == ReadAll(k, objects, root)
  {
    var txSeen: map<Cid, Tx> := map[];
    var visited: set<Cid> := {};
    var queue := [root];
    ReachableRoot(k, objects, root);

    while |queue| != 0
      invariant Explored(k, objects, root, visited, queue)
      invariant Collected(k, objects, visited, txSeen) && |txSeen| <= MaxBlockTxCount
      decreases objects.Keys - visited, |queue|
    {
      var setCid := queue[0];
      queue := queue[1..];
      if setCid in visited {
        ExploreSkip(k, objects, root, visited, [setCid] + queue);
        continue;
      }
      ExploredHead(k, objects, root, visited, [setCid] + queue);
      var txSet := GetSet(k, objects, setCid);
      if txSet.None? {
        return None;
      }
      if txSet.value.tx.Some? {
        var txid := txSet.value.tx.value;
        var t := GetTx(k, objects, txid);
        if t.None? {
          assert !Resolved(k, objects, setCid);
          return None;
        }
        CollectTx(k, objects, visited, txSeen, setCid);
        txSeen := txSeen[txid := t.value];
        if |txSeen| > MaxBlockTxCount {
          TooMany(k, objects, root, visited + {setCid}, txSeen);
          return None;
        }
      } else {
        CollectNothing(k, objects, visited, txSeen, setCid);
      }
      ExploreStep(k, objects, root, visited, [setCid] + queue);
      visited := visited + {setCid};
      queue := queue + txSet.value.children;
    }

    AllCollected(k, objects, root, visited, txSeen);
    r := Some(txSeen);
  }

  lemma AllCollected(k: Codec, objs: Objects, root: Cid, visited: set<Cid>, txSeen: map<Cid, Tx>)
    requires Explored(k, objs, root, visited, []) && Collected(k, objs, visited, txSeen) && |txSeen| <= MaxBlockTxCount
    ensures ReadAll(k, objs, root) == Some(txSeen)
  {
    ReadAllDecided(k, objs, root, visited);
    assert |txSeen| == |txSeen.Keys|;
  }

  /** What is visited is reachable and resolved, and its children are visited or queued. */
  ghost predicate Explored(k: Codec, objs: Objects, root: Cid, visited: set<Cid>, queue: seq<Cid>) {
    && (root in visited || root in queue)
    && visited <= objs.Keys
    && (forall c :: c in visited ==> Reachable(k, objs, root, c) && Resolved(k, objs, c))
    && (forall c :: c in queue ==> Reachable(k, objs, root, c))
    && (forall c, d :: c in visited && HasChild(k, objs, c, d) ==> d in visited || d in queue)
  }

  ghost predicate Collected(k: Codec, objs: Objects, visited: set<Cid>, txSeen: map<Cid, Tx>) {
    txSeen == TxMap(k, objs, TxsOf(k, objs, visited)) && txSeen.Keys == TxsOf(k, objs, visited)
  }

  lemma ExploredHead(k: Codec, objs: Objects, root: Cid, visited: set<Cid>, queue: seq<Cid>)
    requires |queue| > 0 && Explored(k, objs, root, visited, queue)
    ensures Reachable(k, objs, root, queue[0])
    ensures !Resolved(k, objs, queue[0]) ==> ReadAll(k, objs, root).None?
  {
    assert queue[0] in queue;
  }

  lemma ExploreSkip(k: Codec, objs: Objects, root: Cid, visited: set<Cid>, queue: seq<Cid>)
    requires |queue| > 0 && Explored(k, objs, root, visited, queue) && queue[0] in visited
    ensures Explored(k, objs, root, visited, queue[1..])
  {
    assert queue == [queue[0]] + queue[1..];
  }

  lemma ExploreStep(k: Codec, objs: Objects, root: Cid, visited: set<Cid>, queue: seq<Cid>)
    requires |queue| > 0 && Explored(k, objs, root, visited, queue) && Resolved(k, objs, queue[0])
    ensures Explored(k, objs, root, visited + {queue[0]}, queue[1..] + GetSet(k, objs, queue[0]).value.children)
  {
    var c := queue[0];
    assert queue == [c] + queue[1..];
    forall d | d in GetSet(k, objs, c).value.children ensures Reachable(k, objs, root, d) {
      ReachableChild(k, objs, root, c, d);
    }
  }

  lemma CollectTx(k: Codec, objs: Objects, visited: set<Cid>, txSeen: map<Cid, Tx>, c: Cid)
    requires Collected(k, objs, visited, txSeen) && Resolved(k, objs, c) && GetSet(k, objs, c).value.tx.Some?
    ensures var tx := GetSet(k, objs, c).value.tx.value;
            Collected(k, objs, visited + {c}, txSeen[tx := GetTx(k, objs, tx).value])
  {
    var tx := GetSet(k, objs, c).value.tx.value;
    assert TxsOf(k, objs, visited + {c}) == TxsOf(k, objs, visited) + {tx};
  }

  lemma CollectNothing(k: Codec, objs: Objects, visited: set<Cid>, txSeen: map<Cid, Tx>, c: Cid)
    requires Collected(k, objs, visited, txSeen) && Resolved(k, objs, c) && GetSet(k, objs, c).value.tx.None?
    ensures Collected(k, objs, visited + {c}, txSeen)
  {
    assert TxsOf(k, objs, visited + {c}) == TxsOf(k, objs, visited);
  }

  /** More than the maximum found is more than the maximum reachable. */
  lemma TooMany(k: Codec, objs: Objects, root: Cid, sets: set<Cid>, txSeen: map<Cid, Tx>)
    requires forall c :: c in sets ==> c in objs && Reachable(k, objs, root, c)
    requires txSeen.Keys == TxsOf(k, objs, sets) && |txSeen| > MaxBlockTxCount
    ensures ReadAll(k, objs, root).None?
  {
    var all := TxsOf(k, objs, ReachableSets(k, objs, root));
    assert txSeen.Keys <= all;
    SubsetSize(txSeen.Keys, all);
    assert |txSeen.Keys| == |txSeen|;
  }

}
