/** `makeBlock`: from the pool to a stored, readable block. */
module MakeBlock {
  import opened Bytes
  import opened Objects
  import opened TxSets
  import opened Indexes
  import opened MemStores
  import opened MemPools
  import opened Chain

  function TxCid(k: Codec, t: Tx): Cid {
    k.hash(k.encodeTx(t))
  }

  function TxCids(k: Codec, txs: seq<Tx>): seq<Cid> {
    seq(|txs|, i requires 0 <= i < |txs| => TxCid(k, txs[i]))
  }

  ghost predicate TxsStored(k: Codec, objs: Objects, txs: seq<Tx>) {
    forall i :: 0 <= i < |txs| ==> TxCid(k, txs[i]) in objs && objs[TxCid(k, txs[i])] == k.encodeTx(txs[i])
  }

  lemma StoredOneMore(k: Codec, objs: Objects, more: Objects, txs: seq<Tx>, i: nat)
    requires i < |txs| && TxsStored(k, objs, txs[..i]) && Extends(objs, more)
    requires TxCid(k, txs[i]) in more && more[TxCid(k, txs[i])] == k.encodeTx(txs[i])
    ensures TxsStored(k, more, txs[..i + 1])
  {
    forall j | 0 <= j < i + 1 ensures TxCid(k, txs[j]) in more && more[TxCid(k, txs[j])] == k.encodeTx(txs[j]) {
      if j < i {
        assert txs[..i][j] == txs[j];
      }
    }
  }

  method PutTxs(s: MemStore, txs: seq<Tx>) returns (cids: seq<Cid>)
    requires s.Valid()
    modifies s`objects, s`puts
    ensures s.Valid() && Extends(old(s.objects), s.objects)
    ensures cids == TxCids(s.k, txs) && TxsStored(s.k, s.objects, txs)
  {
    cids := [];
    for i := 0 to |txs|
      invariant s.Valid() && Extends(old(s.objects), s.objects)
      invariant cids == TxCids(s.k, txs)[..i] && TxsStored(s.k, s.objects, txs[..i])
    {
      ghost var before := s.objects;
      var c := s.PutObject(s.k.encodeTx(txs[i]));
      StoredOneMore(s.k, before, s.objects, txs, i);
      cids := cids + [c];
    }
    assert txs[..|txs|] == txs;
  }

  /** An empty pool gives no block.  Otherwise exactly the min(1000, size) oldest transactions
      leave the pool, the store only grows, and the block's root is that of their CIDs, stored
      with its whole tree. */
  method Make(pool: TxMemPool, s: MemStore, self: Bytes, head: Cid, height: nat)
    returns (r: Option<Block>, ghost taken: seq<Tx>)
    requires pool.Valid() && s.Valid()
    modifies pool, s`objects, s`puts
    ensures pool.Valid() && s.Valid() && Extends(old(s.objects), s.objects)
    ensures r.None? <==> old(pool.Contents()) == multiset{}
    ensures TakenOldest(old(pool.Contents()), taken, pool.Contents())
    ensures |taken| == Min(MaxBlockTxCount, |old(pool.Contents())|)
    ensures r.Some? ==>
              && r.value.parent == head && r.value.height == height && r.value.proposer == self
              && BlockHolds(s.k, s.objects, r.value.txRoot, taken)
  {
    var n := Min(MaxBlockTxCount, |pool.plist|);
    taken := [];
    assert |pool.Contents()| == |pool.plist|;
    if n == 0 {
      return None, [];
    }
    var txs := pool.TakeOldest(n);
    taken := txs;
    var c := StoreTxs(s, txs);
    r := Some(Block(Undef, head, height, self, c));
  }

  /** Store the transactions and their set; storing the root once more gives the same CID. */
  method StoreTxs(s: MemStore, txs: seq<Tx>) returns (root: Cid)
    requires s.Valid() && 0 < |txs| <= MaxBlockTxCount
    modifies s`objects, s`puts
    ensures s.Valid() && Extends(old(s.objects), s.objects)
    ensures BlockHolds(s.k, s.objects, root, txs)
  {
    var cids := PutTxs(s, txs);
    var list := new Cid[|cids|](i requires 0 <= i < |cids| => cids[i]);
    assert list[..] == cids;
    ghost var stored := s.objects;
    var built := NewTxSet(s, list);
    ghost var tree := BuildTree(list[..]);
    root := PutSet(s, built.value.0, tree);
    assert root == built.value.1;
    TxsStayStored(s.k, stored, s.objects, txs);
  }

  lemma TxsStayStored(k: Codec, objs: Objects, more: Objects, txs: seq<Tx>)
    requires TxsStored(k, objs, txs) && Extends(objs, more)
    ensures TxsStored(k, more, txs)
  {
  }

  function Min(a: nat, b: nat): nat {
    if a < b then a else b
  }

  /** The root is the root of the transactions' sorted CIDs, and everything below it is stored. */
  ghost predicate BlockHolds(k: Codec, objs: Objects, root: Cid, txs: seq<Tx>) {
    && 0 < |txs| <= MaxBlockTxCount
    && root == Root(k, SortedOf(TxCids(k, txs)))
    && Holds(k, objs, BuildTree(SortedOf(TxCids(k, txs))))
    && TxsStored(k, objs, txs)
  }

  /** The map has exactly the given transactions, each under its own CID. */
  ghost predicate Lists(k: Codec, m: map<Cid, Tx>, txs: seq<Tx>) {
    && (forall i :: 0 <= i < |txs| ==> TxCid(k, txs[i]) in m && m[TxCid(k, txs[i])] == txs[i])
    && (forall c :: c in m ==> exists i :: 0 <= i < |txs| && TxCid(k, txs[i]) == c)
  }

  lemma ListedCids(k: Codec, objs: Objects, txs: seq<Tx>, c: Cid) returns (i: nat)
    requires c in SortedOf(TxCids(k, txs)) && TxsStored(k, objs, txs)
    ensures i < |txs| && TxCid(k, txs[i]) == c && GetTx(k, objs, c) == k.decodeTx(k.encodeTx(txs[i]))
  {
    var cids := TxCids(k, txs);
    SortedElements(cids);
    assert c in Elements(SortedOf(cids));
    i :| 0 <= i < |cids| && cids[i] == c;
  }

  lemma CidListed(k: Codec, txs: seq<Tx>, i: nat)
    requires i < |txs|
    ensures TxCid(k, txs[i]) in SortedOf(TxCids(k, txs))
  {
    var cids := TxCids(k, txs);
    SortedElements(cids);
    assert cids[i] in Elements(cids);
    assert cids[i] in Elements(SortedOf(cids));
  }

  /** Reading such a block back succeeds exactly when each transaction decodes, and for
      transactions with the data their type calls for gives exactly those transactions. */
  lemma ReadBack(k: Codec, objs: Objects, root: Cid, txs: seq<Tx>)
    requires Sound(k) && BlockHolds(k, objs, root, txs)
    ensures ReadAll(k, objs, root).Some? <==>
            forall i :: 0 <= i < |txs| ==> k.decodeTx(k.encodeTx(txs[i])).Some?
    ensures (forall i :: 0 <= i < |txs| ==> WellTyped(txs[i])) ==>
              ReadAll(k, objs, root).Some? && Lists(k, ReadAll(k, objs, root).value, txs)
  {
    var sorted := SortedOf(TxCids(k, txs));
    RoundTrip(k, objs, sorted);
    forall i | 0 <= i < |txs| ensures TxCid(k, txs[i]) in sorted {
      CidListed(k, txs, i);
    }
    forall c | c in sorted
      ensures exists i :: 0 <= i < |txs| && TxCid(k, txs[i]) == c && GetTx(k, objs, c) == k.decodeTx(k.encodeTx(txs[i]))
    {
      var i := ListedCids(k, objs, txs, c);
    }
    if forall i :: 0 <= i < |txs| ==> WellTyped(txs[i]) {
      ReadListed(k, objs, txs);
    }
  }

  /** Stored under its own CID, a block that `Make` returned reads back as the taken transactions. */
  lemma MadeBlockReads(k: Codec, objs: Objects, b: Block, taken: seq<Tx>) returns (txs: map<Cid, Tx>)
    requires Sound(k) && Addressed(k, objs) && BlockHolds(k, objs, b.txRoot, taken)
    requires forall i :: 0 <= i < |taken| ==> WellTyped(taken[i])
    ensures var id := k.hash(k.encodeBlock(b));
            var more := objs[id := k.encodeBlock(b)];
            && GetBlock(k, more, id) == Some(b) && ReadAll(k, more, b.txRoot) == Some(txs)
            && Lists(k, txs, taken) && ReadAll(k, objs, b.txRoot) == Some(txs)
  {
    var more := objs[k.hash(k.encodeBlock(b)) := k.encodeBlock(b)];
    PutExtends(k, objs, k.encodeBlock(b));
    ReadBack(k, objs, b.txRoot, taken);
    txs := ReadAll(k, objs, b.txRoot).value;
    ReadExtends(k, objs, more, b.txRoot);
  }

  /** Taken over the edge it has exactly the taken transactions in the block index, under its own CID. */
  lemma MadeBlockIndexed(k: Codec, s: Store, b: Block, taken: seq<Tx>, order: seq<Cid>)
    requires Sound(k) && Addressed(k, s.objs) && BlockHolds(k, s.objs, b.txRoot, taken)
    requires forall i :: 0 <= i < |taken| ==> WellTyped(taken[i])
    requires var txs := ReadAll(k, s.objs, b.txRoot); txs.Some? ==> IsOrder(order, txs.value)
    ensures var id := k.hash(k.encodeBlock(b));
            var stored := s.(objs := s.objs[id := k.encodeBlock(b)]);
            && BlockTxs(k, stored.objs, id).Some? && IsOrder(order, BlockTxs(k, stored.objs, id).value)
            && forall x :: Lookup(OverEdge(k, stored, id, order).index.txBlock, x) ==
                 if exists i :: 0 <= i < |taken| && TxCid(k, taken[i]) == x then Some(id)
                 else Lookup(s.index.txBlock, x)
  {
    var id := k.hash(k.encodeBlock(b));
    var stored := s.(objs := s.objs[id := k.encodeBlock(b)]);
    var txs := MadeBlockReads(k, s.objs, b, taken);
    ValidatedThenAccepted(k, stored, id, b, txs, order);
    ListedIndexed(k, s.index, id, order, txs, OverEdge(k, stored, id, order).index, taken);
  }

  lemma ListedIndexed(k: Codec, before: Index, id: Cid, order: seq<Cid>, txs: map<Cid, Tx>, after: Index,
      taken: seq<Tx>)
    requires IsOrder(order, txs) && IndexedUnder(before, id, order, txs, after) && Lists(k, txs, taken)
    ensures forall x :: Lookup(after.txBlock, x) ==
              if exists i :: 0 <= i < |taken| && TxCid(k, taken[i]) == x then Some(id) else Lookup(before.txBlock, x)
  {
    forall x ensures x in txs <==> exists i :: 0 <= i < |taken| && TxCid(k, taken[i]) == x {
      if i :| 0 <= i < |taken| && TxCid(k, taken[i]) == x {
        assert TxCid(k, taken[i]) in txs;
      }
    }
  }

  lemma ReadListed(k: Codec, objs: Objects, txs: seq<Tx>)
    requires Sound(k) && TxsStored(k, objs, txs) && forall i :: 0 <= i < |txs| ==> WellTyped(txs[i])
    ensures Lists(k, TxMap(k, objs, Elements(SortedOf(TxCids(k, txs)))), txs)
  {
    var m := TxMap(k, objs, Elements(SortedOf(TxCids(k, txs))));
    forall i | 0 <= i < |txs| ensures TxCid(k, txs[i]) in m && m[TxCid(k, txs[i])] == txs[i] {
      CidListed(k, txs, i);
    }
    forall c | c in m ensures exists i :: 0 <= i < |txs| && TxCid(k, txs[i]) == c {
      var i := ListedCids(k, objs, txs, c);
    }
  }
}
