/** The metadata indexes as a function of the transactions that were applied.

    An `Entry` is one application of a transaction of a block.  `Fold` applies entries one after
    the other, as `applyTxs` does; `LastNode`, `LastDid` and `LastBlock` look a key up in the
    history instead, and `FoldMeaning` says that the two always agree.
 */
module Indexes {
  import opened Bytes
  import opened Objects

  datatype Index = Index(txBlock: map<Cid, Cid>, nodes: map<Bytes, Cid>, dids: map<Bytes, Cid>)

  const EmptyIndex := Index(map[], map[], map[])

  datatype Entry = Entry(id: Cid, block: Cid, tx: Tx)

  /** The Go type assertions of `ApplyTx` succeed. */
  predicate Assertable(t: Tx) {
    && (t.kind == KindDid ==> t.data.DidData?)
    && (t.kind == KindNode ==> t.data.NodeData?)
  }

  ghost predicate AllAssertable(es: seq<Entry>) {
    forall i :: 0 <= i < |es| ==> Assertable(es[i].tx)
  }

  /** `MemStore.ApplyTx`: a DID transaction points its DID at itself whatever its action is. */
  function ApplyTx(ix: Index, id: Cid, t: Tx): Index
    requires Assertable(t)
  {
    if t.kind == KindDid then
      ix.(dids := ix.dids[t.data.document.id := id])
    else if t.kind == KindNode && t.action == ActionAdd then
      ix.(nodes := ix.nodes[t.data.id := id])
    else if t.kind == KindNode && t.action == ActionRevoke then
      ix.(nodes := ix.nodes - {t.data.id})
    else
      ix
  }

  function ApplyEntry(ix: Index, e: Entry): Index
    requires Assertable(e.tx)
  {
    ApplyTx(ix.(txBlock := ix.txBlock[e.id := e.block]), e.id, e.tx)
  }

  function Fold(ix: Index, es: seq<Entry>): Index
    requires AllAssertable(es)
  {
    if es == [] then ix
    else ApplyEntry(Fold(ix, es[..|es| - 1]), es[|es| - 1])
  }

  lemma {:induction false} FoldAppend(ix: Index, es: seq<Entry>, more: seq<Entry>)
    requires AllAssertable(es) && AllAssertable(more)
    ensures AllAssertable(es + more)
    ensures Fold(ix, es + more) == Fold(Fold(ix, es), more)
  {
    if more == [] {
      assert es + more == es;
    } else {
      var n := |more| - 1;
      FoldAppend(ix, es, more[..n]);
      assert (es + more)[..|es + more| - 1] == es + more[..n];
    }
  }

  // --------------------------------------------------------------------------------------------
  // Looking the answer up in the history
  // --------------------------------------------------------------------------------------------

  function Lookup<K, V>(m: map<K, V>, key: K): Option<V> {
    if key in m then Some(m[key]) else None
  }

  predicate DecidesNode(t: Tx, id: Bytes) {
    t.kind == KindNode && t.data.NodeData? && t.data.id == id && (t.action == ActionAdd || t.action == ActionRevoke)
  }

  /** The node's entry according to the last transaction that adds or revokes it. */
  function LastNode(ix: Index, es: seq<Entry>, id: Bytes): Option<Cid> {
    if es == [] then Lookup(ix.nodes, id)
    else
      var e := es[|es| - 1];
      if DecidesNode(e.tx, id) then (if e.tx.action == ActionAdd then Some(e.id) else None)
      else LastNode(ix, es[..|es| - 1], id)
  }

  predicate DecidesDid(t: Tx, did: Bytes) {
    t.kind == KindDid && t.data.DidData? && t.data.document.id == did
  }

  function LastDid(ix: Index, es: seq<Entry>, did: Bytes): Option<Cid> {
    if es == [] then Lookup(ix.dids, did)
    else
      var e := es[|es| - 1];
      if DecidesDid(e.tx, did) then Some(e.id)
      else LastDid(ix, es[..|es| - 1], did)
  }

  function LastBlock(ix: Index, es: seq<Entry>, tx: Cid): Option<Cid> {
    if es == [] then Lookup(ix.txBlock, tx)
    else if es[|es| - 1].id == tx then Some(es[|es| - 1].block)
    else LastBlock(ix, es[..|es| - 1], tx)
  }

  /** Every index answers as the last deciding transaction of the history says. */
  lemma {:induction false} FoldMeaning(ix: Index, es: seq<Entry>, node: Bytes, did: Bytes, tx: Cid)
    requires AllAssertable(es)
    ensures Lookup(Fold(ix, es).nodes, node) == LastNode(ix, es, node)
    ensures Lookup(Fold(ix, es).dids, did) == LastDid(ix, es, did)
    ensures Lookup(Fold(ix, es).txBlock, tx) == LastBlock(ix, es, tx)
  {
    if es != [] {
      FoldMeaning(ix, es[..|es| - 1], node, did, tx);
    }
  }

  // --------------------------------------------------------------------------------------------
  // Blocks: the transactions come out of a Go map, in no particular order
  // --------------------------------------------------------------------------------------------

  ghost predicate IsOrder(order: seq<Cid>, txs: map<Cid, Tx>) {
    NoDuplicates(order) && Elements(order) == txs.Keys
  }

  function EntriesOf(b: Cid, order: seq<Cid>, txs: map<Cid, Tx>): (es: seq<Entry>)
    requires forall c :: c in order ==> c in txs
  {
    seq(|order|, i requires 0 <= i < |order| => Entry(order[i], b, txs[order[i]]))
  }

  lemma EntriesAppend(b: Cid, order: seq<Cid>, c: Cid, txs: map<Cid, Tx>)
    requires c in txs && forall d :: d in order ==> d in txs
    ensures EntriesOf(b, order + [c], txs) == EntriesOf(b, order, txs) + [Entry(c, b, txs[c])]
  {
  }

  /** No two transactions of the block decide the same node or the same DID. */
  ghost predicate Independent(txs: map<Cid, Tx>) {
    forall c, d :: c in txs && d in txs && c != d ==>
      && (txs[c].kind == txs[d].kind == KindDid && txs[c].data.DidData? && txs[d].data.DidData? ==>
            txs[c].data.document.id != txs[d].data.document.id)
      && (txs[c].kind == txs[d].kind == KindNode && txs[c].data.NodeData? && txs[d].data.NodeData? ==>
            txs[c].data.id != txs[d].data.id)
  }

  ghost predicate AssertableTxs(txs: map<Cid, Tx>) {
    forall c :: c in txs ==> Assertable(txs[c])
  }

  lemma {:induction false} LastNodeIs(ix: Index, es: seq<Entry>, id: Bytes, i: nat)
    requires i < |es| && DecidesNode(es[i].tx, id)
    requires forall j :: 0 <= j < |es| && j != i ==> !DecidesNode(es[j].tx, id)
    ensures LastNode(ix, es, id) == if es[i].tx.action == ActionAdd then Some(es[i].id) else None
  {
    if i < |es| - 1 {
      LastNodeIs(ix, es[..|es| - 1], id, i);
    }
  }

  lemma {:induction false} LastNodeNone(ix: Index, es: seq<Entry>, id: Bytes)
    requires forall j :: 0 <= j < |es| ==> !DecidesNode(es[j].tx, id)
    ensures LastNode(ix, es, id) == Lookup(ix.nodes, id)
  {
    if es != [] {
      LastNodeNone(ix, es[..|es| - 1], id);
    }
  }

  lemma {:induction false} LastDidIs(ix: Index, es: seq<Entry>, did: Bytes, i: nat)
    requires i < |es| && DecidesDid(es[i].tx, did)
    requires forall j :: 0 <= j < |es| && j != i ==> !DecidesDid(es[j].tx, did)
    ensures LastDid(ix, es, did) == Some(es[i].id)
  {
    if i < |es| - 1 {
      LastDidIs(ix, es[..|es| - 1], did, i);
    }
  }

  lemma {:induction false} LastDidNone(ix: Index, es: seq<Entry>, did: Bytes)
    requires forall j :: 0 <= j < |es| ==> !DecidesDid(es[j].tx, did)
    ensures LastDid(ix, es, did) == Lookup(ix.dids, did)
  {
    if es != [] {
      LastDidNone(ix, es[..|es| - 1], did);
    }
  }

  lemma {:induction false} LastBlockIs(ix: Index, es: seq<Entry>, b: Cid, tx: Cid)
    requires forall i :: 0 <= i < |es| ==> es[i].block == b
    ensures LastBlock(ix, es, tx) ==
            if exists i :: 0 <= i < |es| && es[i].id == tx then Some(b) else Lookup(ix.txBlock, tx)
  {
    if es != [] && es[|es| - 1].id != tx {
      LastBlockIs(ix, es[..|es| - 1], b, tx);
      if i :| 0 <= i < |es| && es[i].id == tx {
        assert es[..|es| - 1][i].id == tx;
      }
    }
  }

  lemma SameLookups<K, V>(m: map<K, V>, n: map<K, V>)
    requires forall key :: Lookup(m, key) == Lookup(n, key)
    ensures m == n
  {
    forall key ensures key in m <==> key in n {
      assert Lookup(m, key) == Lookup(n, key);
    }
    forall key | key in m ensures m[key] == n[key] {
      assert Lookup(m, key) == Lookup(n, key);
    }
  }

  lemma OrderPosition(order: seq<Cid>, txs: map<Cid, Tx>, c: Cid) returns (i: nat)
    requires IsOrder(order, txs) && c in txs
    ensures i < |order| && order[i] == c
  {
    assert c in Elements(order);
    i :| 0 <= i < |order| && order[i] == c;
  }

  lemma OrderKeys(order: seq<Cid>, txs: map<Cid, Tx>)
    requires IsOrder(order, txs)
    ensures forall c :: c in order ==> c in txs
  {
    forall c | c in order ensures c in txs {
      assert c in Elements(order);
    }
  }

  /** The node entry that applying a block of independent transactions leaves behind. */
  lemma BlockNode(ix: Index, b: Cid, order: seq<Cid>, txs: map<Cid, Tx>, id: Bytes)
    requires IsOrder(order, txs) && (forall c :: c in order ==> c in txs) && Independent(txs)
    ensures (forall c :: c in txs ==> !DecidesNode(txs[c], id)) ==>
              LastNode(ix, EntriesOf(b, order, txs), id) == Lookup(ix.nodes, id)
    ensures forall c :: c in txs && DecidesNode(txs[c], id) ==>
              LastNode(ix, EntriesOf(b, order, txs), id) == if txs[c].action == ActionAdd then Some(c) else None
  {
    var es := EntriesOf(b, order, txs);
    if forall c :: c in txs ==> !DecidesNode(txs[c], id) {
      LastNodeNone(ix, es, id);
    }
    forall c | c in txs && DecidesNode(txs[c], id)
      ensures LastNode(ix, es, id) == if txs[c].action == ActionAdd then Some(c) else None
    {
      var i := OrderPosition(order, txs, c);
      LastNodeIs(ix, es, id, i);
    }
  }

  lemma BlockDid(ix: Index, b: Cid, order: seq<Cid>, txs: map<Cid, Tx>, did: Bytes)
    requires IsOrder(order, txs) && (forall c :: c in order ==> c in txs) && Independent(txs)
    ensures (forall c :: c in txs ==> !DecidesDid(txs[c], did)) ==>
              LastDid(ix, EntriesOf(b, order, txs), did) == Lookup(ix.dids, did)
    ensures forall c :: c in txs && DecidesDid(txs[c], did) ==>
              LastDid(ix, EntriesOf(b, order, txs), did) == Some(c)
  {
    var es := EntriesOf(b, order, txs);
    if forall c :: c in txs ==> !DecidesDid(txs[c], did) {
      LastDidNone(ix, es, did);
    }
    forall c | c in txs && DecidesDid(txs[c], did)
      ensures LastDid(ix, es, did) == Some(c)
    {
      var i := OrderPosition(order, txs, c);
      LastDidIs(ix, es, did, i);
    }
  }

  lemma BlockTx(ix: Index, b: Cid, order: seq<Cid>, txs: map<Cid, Tx>, tx: Cid)
    requires IsOrder(order, txs) && (forall c :: c in order ==> c in txs)
    ensures LastBlock(ix, EntriesOf(b, order, txs), tx) == if tx in txs then Some(b) else Lookup(ix.txBlock, tx)
  {
    var es := EntriesOf(b, order, txs);
    LastBlockIs(ix, es, b, tx);
    if tx in txs {
      var i := OrderPosition(order, txs, tx);
      assert es[i].id == tx;
    }
  }

  /** A block whose transactions decide pairwise different nodes and DIDs leaves the same
      indexes behind in whichever order Go's map iteration visits them. */
  lemma OrderIrrelevant(ix: Index, b: Cid, o1: seq<Cid>, o2: seq<Cid>, txs: map<Cid, Tx>)
    requires IsOrder(o1, txs) && IsOrder(o2, txs) && Independent(txs) && AssertableTxs(txs)
    requires (forall c :: c in o1 ==> c in txs) && (forall c :: c in o2 ==> c in txs)
    ensures Fold(ix, EntriesOf(b, o1, txs)) == Fold(ix, EntriesOf(b, o2, txs))
  {
    var e1, e2 := EntriesOf(b, o1, txs), EntriesOf(b, o2, txs);
    var f1, f2 := Fold(ix, e1), Fold(ix, e2);
    forall id: Bytes
      ensures Lookup(f1.nodes, id) == Lookup(f2.nodes, id)
      ensures Lookup(f1.dids, id) == Lookup(f2.dids, id)
      ensures Lookup(f1.txBlock, id) == Lookup(f2.txBlock, id)
    {
      FoldMeaning(ix, e1, id, id, id);
      FoldMeaning(ix, e2, id, id, id);
      BlockNode(ix, b, o1, txs, id);
      BlockNode(ix, b, o2, txs, id);
      BlockDid(ix, b, o1, txs, id);
      BlockDid(ix, b, o2, txs, id);
      BlockTx(ix, b, o1, txs, id);
      BlockTx(ix, b, o2, txs, id);
    }
    SameLookups(f1.nodes, f2.nodes);
    SameLookups(f1.dids, f2.dids);
    SameLookups(f1.txBlock, f2.txBlock);
  }
}
