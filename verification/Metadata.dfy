/** The persistent store's metadata: one ordered key-value table that holds all indexes, told apart
    by the first byte of the key.

    `PutAll` says what indexing a history of transactions does to the table; the lookups are compared
    with the history itself, and the node list with that of the in-memory store. */
module Metadata {
  import opened Bytes
  import opened Objects
  import opened TxSets
  import opened Indexes
  import opened MemStores

  type Table = map<Bytes, Bytes>

  const TxBlockPrefix: byte := 1
  const BlockStatePrefix: byte := 2
  const DidPrefix: byte := 3
  const DidHistoryPrefix: byte := 4
  const NodesPrefix: byte := 6
  const LatestBlockPrefix: byte := 7
  const TableSep: byte := 58

  // --------------------------------------------------------------------------------------------
  // Keys
  // --------------------------------------------------------------------------------------------

  /** The parts with a separator between any two. */
  function Joined(parts: seq<Bytes>): Bytes {
    if parts == [] then []
    else if |parts| == 1 then parts[0]
    else Joined(parts[..|parts| - 1]) + [TableSep] + parts[|parts| - 1]
  }

  function Key(prefix: byte, parts: seq<Bytes>): Bytes {
    [prefix] + Joined(parts)
  }

  /** `typedKey`: each part is appended with a separator behind it, and the last one is cut off. */
  method TypedKey(prefix: byte, parts: seq<Bytes>) returns (key: Bytes)
    ensures key == Key(prefix, parts)
  {
    if |parts| == 0 {
      return [prefix];
    }
    key := [prefix];
    for i := 0 to |parts|
      invariant key == if i == 0 then [prefix] else Key(prefix, parts[..i]) + [TableSep]
    {
      key := key + parts[i];
      key := key + [TableSep];
      assert parts[..i + 1][..i] == parts[..i];
    }
    assert parts[..|parts|] == parts;
    key := key[..|key| - 1];
  }

  /** Keys with one part determine their table and the part. */
  lemma SingleKeysDiffer(p: byte, a: Bytes, q: byte, b: Bytes)
    requires Key(p, [a]) == Key(q, [b])
    ensures p == q && a == b
  {
    assert a == Key(p, [a])[1..] && b == Key(q, [b])[1..];
  }

  lemma SeparatorBehind(m: Bytes, i: nat, j: nat)
    requires i < |m| && j < |m| && m[j] == TableSep
    ensures i < j ==> TableSep in m[i + 1..]
  {
    assert i < j ==> m[i + 1..][j - i - 1] == TableSep;
  }

  lemma TwoParts(p: byte, a: Bytes, x: Bytes)
    ensures Key(p, [a, x]) == [p] + a + [TableSep] + x
  {
    assert [a, x][..1] == [a];
    assert Joined([a]) == a;
    assert Key(p, [a, x]) == [p] + (a + [TableSep] + x);
  }

  /** Keys with two parts determine both if the second has no separator, whatever the first has: a DID
      has separators of its own, a CID has none. */
  lemma TwoPartKeys(p: byte, a: Bytes, x: Bytes, q: byte, b: Bytes, y: Bytes)
    requires TableSep !in x && TableSep !in y && Key(p, [a, x]) == Key(q, [b, y])
    ensures p == q && a == b && x == y
  {
    TwoParts(p, a, x);
    TwoParts(q, b, y);
    var m := Key(p, [a, x]);
    assert p == m[0] && q == m[0];
    assert a == m[1..|a| + 1] && b == m[1..|b| + 1] && x == m[|a| + 2..] && y == m[|b| + 2..];
    SeparatorBehind(m, |a| + 1, |b| + 1);
    SeparatorBehind(m, |b| + 1, |a| + 1);
  }

  // --------------------------------------------------------------------------------------------
  // Indexing
  // --------------------------------------------------------------------------------------------

  /** `ApplyTx` with `indexTxNode`, `indexTxDID` and `indexTxVC`; a failed type assertion is
      recovered and reported as an error. */
  function PutTx(tbl: Table, id: Cid, t: Tx): Option<Table> {
    if t.kind == KindNode && t.data.NodeData? then
      var key := Key(NodesPrefix, [t.data.id]);
      if t.action == ActionAdd then Some(tbl[key := id])
      else if t.action == ActionRevoke then Some(tbl - {key})
      else None
    else if t.kind == KindDid && t.data.DidData? then
      var key := Key(DidPrefix, [t.data.document.id]);
      var kept := tbl[Key(DidHistoryPrefix, [t.data.document.id, id]) := id];
      if t.action == ActionAdd || t.action == ActionUpdate then Some(kept[key := id])
      else if t.action == ActionRevoke then Some(kept - {key})
      else None
    else None
  }

  function PutEntry(tbl: Table, e: Entry): Option<Table> {
    PutTx(tbl[Key(TxBlockPrefix, [e.id]) := e.block], e.id, e.tx)
  }

  /** All entries or none. */
  function PutAll(tbl: Table, es: seq<Entry>): Option<Table> {
    if es == [] then Some(tbl)
    else match PutAll(tbl, es[..|es| - 1])
      case None => None
      case Some(before) => PutEntry(before, es[|es| - 1])
  }

  /** A transaction that this store can index. */
  predicate Supported(t: Tx) {
    || (t.kind == KindNode && t.data.NodeData? && (t.action == ActionAdd || t.action == ActionRevoke))
    || (t.kind == KindDid && t.data.DidData?
      && (t.action == ActionAdd || t.action == ActionUpdate || t.action == ActionRevoke))
  }

  lemma {:induction false} IndexedIff(tbl: Table, es: seq<Entry>)
    ensures PutAll(tbl, es).Some? <==> forall i :: 0 <= i < |es| ==> Supported(es[i].tx)
  {
    if es != [] {
      IndexedIff(tbl, es[..|es| - 1]);
    }
  }

  // --------------------------------------------------------------------------------------------
  // What the lookups answer
  // --------------------------------------------------------------------------------------------

  /** What the last DID transaction of the history says: its CID, or nothing after a revocation. */
  function LastDocument(es: seq<Entry>, did: Bytes): Option<Cid> {
    if es == [] then None
    else
      var e := es[|es| - 1];
      if DecidesDid(e.tx, did) then (if e.tx.action == ActionRevoke then None else Some(e.id))
      else LastDocument(es[..|es| - 1], did)
  }

  lemma OtherTable(p: byte, a: Bytes, q: byte, parts: seq<Bytes>)
    requires p != q
    ensures Key(p, [a]) != Key(q, parts)
  {
    assert Key(p, [a])[0] == p && Key(q, parts)[0] == q;
  }

  lemma PutEntryMeaning(tbl: Table, e: Entry, did: Bytes, node: Bytes)
    requires PutEntry(tbl, e).Some?
    ensures var r := PutEntry(tbl, e).value;
            && Lookup(r, Key(DidPrefix, [did])) ==
               (if DecidesDid(e.tx, did) then (if e.tx.action == ActionRevoke then None else Some(e.id))
                 else Lookup(tbl, Key(DidPrefix, [did])))
            && Lookup(r, Key(NodesPrefix, [node])) ==
               (if DecidesNode(e.tx, node) then (if e.tx.action == ActionAdd then Some(e.id) else None)
                 else Lookup(tbl, Key(NodesPrefix, [node])))
  {
    OtherTable(DidPrefix, did, TxBlockPrefix, [e.id]);
    OtherTable(NodesPrefix, node, TxBlockPrefix, [e.id]);
    if e.tx.kind == KindNode {
      OtherTable(DidPrefix, did, NodesPrefix, [e.tx.data.id]);
      if Key(NodesPrefix, [node]) == Key(NodesPrefix, [e.tx.data.id]) {
        SingleKeysDiffer(NodesPrefix, node, NodesPrefix, e.tx.data.id);
      }
    } else {
      var doc := e.tx.data.document.id;
      OtherTable(NodesPrefix, node, DidPrefix, [doc]);
      OtherTable(NodesPrefix, node, DidHistoryPrefix, [doc, e.id]);
      OtherTable(DidPrefix, did, DidHistoryPrefix, [doc, e.id]);
      if Key(DidPrefix, [did]) == Key(DidPrefix, [doc]) {
        SingleKeysDiffer(DidPrefix, did, DidPrefix, doc);
      }
    }
  }

  /** The block of every transaction. */
  lemma PutEntryBlock(tbl: Table, e: Entry, tx: Cid)
    requires PutEntry(tbl, e).Some?
    ensures Lookup(PutEntry(tbl, e).value, Key(TxBlockPrefix, [tx])) ==
            if e.id == tx then Some(e.block) else Lookup(tbl, Key(TxBlockPrefix, [tx]))
  {
    if Key(TxBlockPrefix, [tx]) == Key(TxBlockPrefix, [e.id]) {
      SingleKeysDiffer(TxBlockPrefix, tx, TxBlockPrefix, e.id);
    }
    if e.tx.kind == KindNode {
      OtherTable(TxBlockPrefix, tx, NodesPrefix, [e.tx.data.id]);
    } else {
      OtherTable(TxBlockPrefix, tx, DidPrefix, [e.tx.data.document.id]);
      OtherTable(TxBlockPrefix, tx, DidHistoryPrefix, [e.tx.data.document.id, e.id]);
    }
  }

  /** The table answers for every DID, every node and the block of every transaction as the last
      transaction of the history says. */
  ghost predicate Follows(tbl: Table, es: seq<Entry>) {
    forall x: Bytes :: Answers(tbl, es, x)
  }

  ghost predicate Answers(tbl: Table, es: seq<Entry>, x: Bytes) {
    && Lookup(tbl, Key(DidPrefix, [x])) == LastDocument(es, x)
    && Lookup(tbl, Key(NodesPrefix, [x])) == LastNode(EmptyIndex, es, x)
    && Lookup(tbl, Key(TxBlockPrefix, [x])) == LastBlock(EmptyIndex, es, x)
  }

  lemma FollowsEntry(tbl: Table, es: seq<Entry>, e: Entry)
    requires Follows(tbl, es) && PutEntry(tbl, e).Some?
    ensures Follows(PutEntry(tbl, e).value, es + [e])
  {
    var all := es + [e];
    assert all[..|all| - 1] == es;
    forall x: Bytes ensures Answers(PutEntry(tbl, e).value, all, x) {
      assert Answers(tbl, es, x);
      PutEntryMeaning(tbl, e, x, x);
      PutEntryBlock(tbl, e, x);
    }
  }

  lemma {:induction false} FollowsPut(tbl: Table, es: seq<Entry>, more: seq<Entry>)
    requires Follows(tbl, es) && PutAll(tbl, more).Some?
    ensures Follows(PutAll(tbl, more).value, es + more)
  {
    if more == [] {
      assert es + more == es;
    } else {
      var n := |more| - 1;
      FollowsPut(tbl, es, more[..n]);
      FollowsEntry(PutAll(tbl, more[..n]).value, es + more[..n], more[n]);
      assert es + more == es + more[..n] + [more[n]];
    }
  }

  /** Every DID transaction indexed is listed in the history of its DID, whatever came after it. */
  lemma {:induction false} HistoryKept(tbl: Table, es: seq<Entry>, i: nat)
    requires PutAll(tbl, es).Some? && i < |es| && es[i].tx.kind == KindDid && es[i].tx.data.DidData?
    requires forall j :: 0 <= j < |es| ==> TableSep !in es[j].id
    ensures var did := es[i].tx.data.document.id;
            Lookup(PutAll(tbl, es).value, Key(DidHistoryPrefix, [did, es[i].id])) == Some(es[i].id)
  {
    var n := |es| - 1;
    var e, did := es[n], es[i].tx.data.document.id;
    if i < n {
      HistoryKept(tbl, es[..n], i);
    }
    HistoryStep(PutAll(tbl, es[..n]).value, e, did, es[i].id);
  }

  lemma HistoryStep(tbl: Table, e: Entry, did: Bytes, id: Cid)
    requires PutEntry(tbl, e).Some? && TableSep !in e.id && TableSep !in id
    requires (e.id == id && DecidesDid(e.tx, did)) || Lookup(tbl, Key(DidHistoryPrefix, [did, id])) == Some(id)
    ensures Lookup(PutEntry(tbl, e).value, Key(DidHistoryPrefix, [did, id])) == Some(id)
  {
    var key := Key(DidHistoryPrefix, [did, id]);
    OtherTable(TxBlockPrefix, e.id, DidHistoryPrefix, [did, id]);
    if e.tx.kind == KindNode {
      OtherTable(NodesPrefix, e.tx.data.id, DidHistoryPrefix, [did, id]);
    } else {
      var doc := e.tx.data.document.id;
      OtherTable(DidPrefix, doc, DidHistoryPrefix, [did, id]);
      if key == Key(DidHistoryPrefix, [doc, e.id]) {
        TwoPartKeys(DidHistoryPrefix, did, id, DidHistoryPrefix, doc, e.id);
      }
    }
  }

  /** Writes to the other tables leave the answers alone. */
  lemma FollowsOther(tbl: Table, es: seq<Entry>, key: Bytes, v: Bytes)
    requires Follows(tbl, es)
    requires !InTable(key, DidPrefix) && !InTable(key, NodesPrefix) && !InTable(key, TxBlockPrefix)
    ensures Follows(tbl[key := v], es)
  {
    var after := tbl[key := v];
    forall x: Bytes ensures Answers(after, es, x) {
      assert Answers(tbl, es, x);
      assert InTable(Key(DidPrefix, [x]), DidPrefix) && InTable(Key(NodesPrefix, [x]), NodesPrefix);
      assert InTable(Key(TxBlockPrefix, [x]), TxBlockPrefix);
    }
  }

  // --------------------------------------------------------------------------------------------
  // What every reachable table keeps
  // --------------------------------------------------------------------------------------------

  predicate InTable(key: Bytes, prefix: byte) {
    |key| > 0 && key[0] == prefix
  }

  ghost predicate NodeEntryOk(k: Codec, objs: Objects, id: Bytes, c: Cid) {
    GetTx(k, objs, c).Some? &&
    (var t := GetTx(k, objs, c).value;
     t.kind == KindNode && t.action == ActionAdd && t.data.NodeData? && t.data.id == id)
  }

  ghost predicate DidEntryOk(k: Codec, objs: Objects, did: Bytes, c: Cid) {
    GetTx(k, objs, c).Some? &&
    (var t := GetTx(k, objs, c).value;
     t.kind == KindDid && t.action != ActionRevoke && t.data.DidData? && t.data.document.id == did)
  }

  /** Every node entry points at the stored Add of that node, every DID entry at a stored Add or
      Update of that DID, and every block state is four bytes long. */
  ghost predicate TableInv(k: Codec, objs: Objects, tbl: Table) {
    && (forall key :: key in tbl && InTable(key, NodesPrefix) ==> NodeEntryOk(k, objs, key[1..], tbl[key]))
    && (forall key :: key in tbl && InTable(key, DidPrefix) ==> DidEntryOk(k, objs, key[1..], tbl[key]))
    && (forall key :: key in tbl && InTable(key, BlockStatePrefix) ==> |tbl[key]| == 4)
  }

  ghost predicate EntriesStored(k: Codec, objs: Objects, es: seq<Entry>) {
    forall i :: 0 <= i < |es| ==> GetTx(k, objs, es[i].id) == Some(es[i].tx)
  }

  lemma PutEntryKeeps(k: Codec, objs: Objects, tbl: Table, e: Entry)
    requires TableInv(k, objs, tbl) && GetTx(k, objs, e.id) == Some(e.tx) && PutEntry(tbl, e).Some?
    ensures TableInv(k, objs, PutEntry(tbl, e).value)
  {
    if e.tx.kind == KindNode {
      assert Key(NodesPrefix, [e.tx.data.id])[1..] == e.tx.data.id;
    } else {
      assert Key(DidPrefix, [e.tx.data.document.id])[1..] == e.tx.data.document.id;
    }
  }

  lemma {:induction false} PutAllKeeps(k: Codec, objs: Objects, tbl: Table, es: seq<Entry>)
    requires TableInv(k, objs, tbl) && EntriesStored(k, objs, es) && PutAll(tbl, es).Some?
    ensures TableInv(k, objs, PutAll(tbl, es).value)
  {
    if es != [] {
      PutAllKeeps(k, objs, tbl, es[..|es| - 1]);
      PutEntryKeeps(k, objs, PutAll(tbl, es[..|es| - 1]).value, es[|es| - 1]);
    }
  }

  lemma TableInvExtends(k: Codec, objs: Objects, more: Objects, tbl: Table)
    requires TableInv(k, objs, tbl) && Extends(objs, more)
    ensures TableInv(k, more, tbl)
  {
  }

  // --------------------------------------------------------------------------------------------
  // Nodes
  // --------------------------------------------------------------------------------------------

  ghost function NodeIds(tbl: Table): set<Bytes> {
    set key | key in tbl && InTable(key, NodesPrefix) :: key[1..]
  }

  lemma NodeIdsMember(tbl: Table, id: Bytes)
    ensures id in NodeIds(tbl) <==> Key(NodesPrefix, [id]) in tbl
  {
    var key := Key(NodesPrefix, [id]);
    assert key[1..] == id;
    if id in NodeIds(tbl) {
      var other :| other in tbl && InTable(other, NodesPrefix) && other[1..] == id;
      assert other == [NodesPrefix] + other[1..];
    }
  }

  datatype NodeAnswer = NodeFound(data: TxData) | NodeMissing | NodeError

  /** `Node`. */
  function NodeLookup(k: Codec, objs: Objects, tbl: Table, id: Bytes): NodeAnswer {
    var key := Key(NodesPrefix, [id]);
    if key !in tbl then NodeMissing
    else match GetTx(k, objs, tbl[key])
      case None => NodeError
      case Some(t) =>
        if t.kind != KindNode then NodeError
        else if t.action == ActionRevoke then NodeMissing
        else NodeFound(t.data)
  }

  /** In every reachable state `Node` answers, without error, for exactly the ids that `Nodes`
      lists, with data for the id that was asked for. */
  lemma NodeIffListed(k: Codec, objs: Objects, tbl: Table, id: Bytes)
    requires TableInv(k, objs, tbl)
    ensures NodeLookup(k, objs, tbl, id).NodeFound? <==> id in NodeIds(tbl)
    ensures !NodeLookup(k, objs, tbl, id).NodeError?
    ensures id in NodeIds(tbl) ==>
              NodeLookup(k, objs, tbl, id).data.NodeData? && NodeLookup(k, objs, tbl, id).data.id == id
  {
    NodeIdsMember(tbl, id);
    var key := Key(NodesPrefix, [id]);
    assert key[1..] == id;
    if key in tbl {
      assert InTable(key, NodesPrefix);
    }
  }

  /** The last transaction of the history that adds or revokes the node. */
  function LastNodeTx(es: seq<Entry>, id: Bytes): (r: Option<Tx>)
    ensures r.Some? ==> DecidesNode(r.value, id)
  {
    if es == [] then None
    else if DecidesNode(es[|es| - 1].tx, id) then Some(es[|es| - 1].tx)
    else LastNodeTx(es[..|es| - 1], id)
  }

  lemma {:induction false} LastNodeStored(k: Codec, objs: Objects, es: seq<Entry>, id: Bytes)
    requires EntriesStored(k, objs, es)
    ensures var at := LastNode(EmptyIndex, es, id);
            match LastNodeTx(es, id)
            case None => at == None
            case Some(t) =>
              if t.action == ActionAdd then at.Some? && GetTx(k, objs, at.value) == Some(t) else at == None
  {
    if es != [] {
      LastNodeStored(k, objs, es[..|es| - 1], id);
    }
  }

  /** What a history says about a node: the data of its last Add, key and DID included, unless a
      revocation came after it. */
  function NodeAnswerOf(es: seq<Entry>, id: Bytes): NodeAnswer {
    match LastNodeTx(es, id)
    case None => NodeMissing
    case Some(t) => if t.action == ActionAdd then NodeFound(t.data) else NodeMissing
  }

  lemma NodeFollowsHistory(k: Codec, objs: Objects, tbl: Table, es: seq<Entry>, id: Bytes)
    requires EntriesStored(k, objs, es) && Follows(tbl, es)
    ensures NodeLookup(k, objs, tbl, id) == NodeAnswerOf(es, id)
  {
    LastNodeStored(k, objs, es, id);
    assert Answers(tbl, es, id);
  }

  datatype DidAnswer = DocumentFound(document: Document) | DidMissing | DidError

  /** `LookupDID`. */
  function DidLookup(k: Codec, objs: Objects, tbl: Table, did: Bytes): DidAnswer {
    var key := Key(DidPrefix, [did]);
    if key !in tbl then DidMissing
    else match GetTx(k, objs, tbl[key])
      case None => DidError
      case Some(t) => if t.kind == KindDid && t.data.DidData? then DocumentFound(t.data.document) else DidError
  }

  /** The last transaction of the history that touches the DID. */
  function LastDidTx(es: seq<Entry>, did: Bytes): (r: Option<Tx>)
    ensures r.Some? ==> DecidesDid(r.value, did)
  {
    if es == [] then None
    else if DecidesDid(es[|es| - 1].tx, did) then Some(es[|es| - 1].tx)
    else LastDidTx(es[..|es| - 1], did)
  }

  lemma {:induction false} LastDocumentStored(k: Codec, objs: Objects, es: seq<Entry>, did: Bytes)
    requires EntriesStored(k, objs, es)
    ensures match LastDidTx(es, did)
            case None => LastDocument(es, did) == None
            case Some(t) =>
              if t.action == ActionRevoke then LastDocument(es, did) == None
              else LastDocument(es, did).Some? && GetTx(k, objs, LastDocument(es, did).value) == Some(t)
  {
    if es != [] {
      LastDocumentStored(k, objs, es[..|es| - 1], did);
    }
  }

  /** After any indexed history `LookupDID` gives the document of the last Add or Update of the DID;
      it is missing if there was none, or if a revocation came last. */
  lemma LookupFollowsHistory(k: Codec, objs: Objects, tbl: Table, es: seq<Entry>, did: Bytes)
    requires EntriesStored(k, objs, es) && Follows(tbl, es)
    ensures DidLookup(k, objs, tbl, did) ==
            match LastDidTx(es, did)
            case None => DidMissing
            case Some(t) => if t.action == ActionRevoke then DidMissing else DocumentFound(t.data.document)
  {
    LastDocumentStored(k, objs, es, did);
    assert Answers(tbl, es, did);
  }

  // --------------------------------------------------------------------------------------------
  // The node lists of the two stores, and the proposer
  // --------------------------------------------------------------------------------------------

  /** After the same history both stores have the same nodes. */
  lemma SameNodes(tbl: Table, es: seq<Entry>)
    requires Follows(tbl, es) && AllAssertable(es)
    ensures NodeIds(tbl) == Fold(EmptyIndex, es).nodes.Keys
  {
    var ix := Fold(EmptyIndex, es);
    forall id: Bytes ensures id in NodeIds(tbl) <==> id in ix.nodes.Keys {
      NodeIdsMember(tbl, id);
      FoldMeaning(EmptyIndex, es, id, [], []);
      assert Answers(tbl, es, id);
    }
  }

  /** And both give every transaction the same block. */
  lemma SameBlocks(tbl: Table, es: seq<Entry>, tx: Cid)
    requires Follows(tbl, es) && AllAssertable(es)
    ensures Lookup(tbl, Key(TxBlockPrefix, [tx])) == Lookup(Fold(EmptyIndex, es).txBlock, tx)
  {
    FoldMeaning(EmptyIndex, es, [], [], tx);
    assert Answers(tbl, es, tx);
  }

  /** `proposer`: the beacon's value picks from the list; an empty list is a division by zero. */
  function Proposer(nodes: seq<Bytes>, beacon: nat): (p: Bytes)
    requires |nodes| > 0
    ensures p in nodes
  {
    nodes[beacon % |nodes|]
  }

  lemma MulBetween(n: int, k: int)
    requires 0 <= n * k < n
    ensures k == 0
  {
    assert k <= -1 ==> n * k <= -n;
    assert k >= 1 ==> n * k >= n;
  }

  lemma ModUnique(a: nat, b: nat, n: nat)
    requires n > 0 && a % n == b % n && a <= b < a + n
    ensures a == b
  {
    assert b - a == n * (b / n - a / n);
    MulBetween(n, b / n - a / n);
  }

  lemma ModOf(q: nat, n: nat, i: nat)
    requires i < n
    ensures (q * n + i) % n == i
  {
    var x := q * n + i;
    assert x == n * (x / n) + x % n;
    if i >= x % n {
      assert n * (x / n - q) == i - x % n;
      MulBetween(n, x / n - q);
    } else {
      assert n * (q - x / n) == x % n - i;
      MulBetween(n, q - x / n);
    }
  }

  lemma InWindow(start: nat, n: nat, i: nat) returns (b: nat)
    requires i < n
    ensures start <= b < start + n && b % n == i
  {
    var q, r := start / n, start % n;
    var p := if i >= r then q else q + 1;
    b := p * n + i;
    ModOf(p, n, i);
    assert start == q * n + r && (q + 1) * n == q * n + n;
  }

  lemma SameInWindow(start: nat, n: nat, b: nat, c: nat)
    requires start <= b < start + n && start <= c < start + n && b % n == c % n
    ensures b == c
  {
    ModUnique(if b <= c then b else c, if b <= c then c else b, n);
  }

  /** The beacon goes through the list in order, again and again. */
  lemma ProposerCycles(nodes: seq<Bytes>, q: nat, j: nat)
    requires j < |nodes|
    ensures Proposer(nodes, q * |nodes| + j) == nodes[j]
  {
    ModOf(q, |nodes|, j);
  }

  /** Of any |nodes| consecutive beacon values exactly one picks a given node. */
  lemma PickedOnce(nodes: seq<Bytes>, start: nat, p: Bytes) returns (b: nat)
    requires NoDuplicates(nodes) && p in nodes
    ensures start <= b < start + |nodes| && Proposer(nodes, b) == p
    ensures forall c :: start <= c < start + |nodes| && Proposer(nodes, c) == p ==> c == b
  {
    var n := |nodes|;
    var i :| 0 <= i < n && nodes[i] == p;
    b := InWindow(start, n, i);
    forall c | start <= c < start + n && Proposer(nodes, c) == p ensures c == b {
      SameInWindow(start, n, b, c);
    }
  }

  /** Any two stores with the same history, of whichever kind, list the same nodes in the same order
      and so pick the same proposer for every beacon value. */
  lemma SameProposer(tbl: Table, es: seq<Entry>, mem: seq<Bytes>, scanned: seq<Bytes>, beacon: nat)
    requires Follows(tbl, es) && AllAssertable(es)
    requires StrictlySorted(mem) && Elements(mem) == Fold(EmptyIndex, es).nodes.Keys
    requires StrictlySorted(scanned) && Elements(scanned) == NodeIds(tbl)
    ensures mem == scanned && NoDuplicates(mem)
    ensures |mem| > 0 ==> Proposer(mem, beacon) == Proposer(scanned, beacon)
    ensures forall p :: p in mem ==>
              exists b :: beacon <= b < beacon + |mem| && Proposer(scanned, b) == p &&
                forall c :: beacon <= c < beacon + |mem| && Proposer(scanned, c) == p ==> c == b
  {
    SameNodes(tbl, es);
    StrictlySortedUnique(mem, scanned);
    StrictImpliesSorted(mem);
    forall p | p in mem
      ensures exists b :: beacon <= b < beacon + |mem| && Proposer(scanned, b) == p &&
                forall c :: beacon <= c < beacon + |mem| && Proposer(scanned, c) == p ==> c == b
    {
      var b := PickedOnce(mem, beacon, p);
    }
  }

  // --------------------------------------------------------------------------------------------
  // The store
  // --------------------------------------------------------------------------------------------

  /** A block state as four little-endian bytes. */
  function StateBytes(st: nat): Bytes
    requires st < 256
  {
    [st as byte, 0, 0, 0]
  }

  function StateOf(tbl: Table, b: Cid): nat {
    var key := Key(BlockStatePrefix, [b]);
    if key in tbl && |tbl[key]| == 4
    then tbl[key][0] as nat + 256 * (tbl[key][1] as nat + 256 * (tbl[key][2] as nat + 256 * (tbl[key][3] as nat)))
    else Unvalidated
  }

  function Marked(tbl: Table, b: Cid, st: nat): Table
    requires st < 256
  {
    tbl[Key(BlockStatePrefix, [b]) := StateBytes(st)]
  }

  lemma MarkedKeeps(k: Codec, objs: Objects, tbl: Table, b: Cid, st: nat)
    requires TableInv(k, objs, tbl) && st < 256
    ensures TableInv(k, objs, Marked(tbl, b, st)) && StateOf(Marked(tbl, b, st), b) == st
    ensures TableInv(k, objs, Marked(tbl, b, st)[Key(LatestBlockPrefix, []) := b])
  {
  }

  lemma RangeIsPrefix(key: Bytes, p: byte)
    requires p < 255
    ensures !Less(key, [p]) && Less(key, [p + 1]) <==> InTable(key, p)
  {
  }

  lemma {:induction false} LeastExists(s: set<Bytes>) returns (least: Bytes)
    requires s != {}
    ensures least in s && forall x :: x in s ==> !Less(x, least)
  {
    var x :| x in s;
    if s == {x} {
      least := x;
      LessIrreflexive(x);
    } else {
      var rest := LeastExists(s - {x});
      LessTotal(x, rest);
      if Less(x, rest) {
        least := x;
        forall y | y in s ensures !Less(y, x) {
          if Less(y, x) {
            if y == x { LessIrreflexive(x); } else { LessTransitive(y, x, rest); }
          }
        }
      } else {
        least := rest;
      }
    }
  }

  class IPFSStorage {
    const k: Codec
    var objects: Objects
    var metadata: Table
    ghost var history: seq<Entry>  // everything indexed so far

    ghost predicate Valid()
      reads this
    {
      && Sound(k) && Addressed(k, objects) && TableInv(k, objects, metadata)
      && Follows(metadata, history) && EntriesStored(k, objects, history) && AllAssertable(history)
    }

    constructor (k: Codec, objects: Objects)
      requires Sound(k) && Addressed(k, objects)
      ensures Valid() && this.k == k && this.objects == objects && history == []
    {
      this.k, this.objects, metadata, history := k, objects, map[], [];
    }

    /** `putRaw`, with which transactions, sets and blocks are stored: everything indexed still answers
        as before. */
    method PutObject(d: Blob) returns (c: Cid)
      requires Valid()
      modifies this`objects
      ensures Valid() && c == k.hash(d) && objects == old(objects)[c := d] && Extends(old(objects), objects)
      ensures forall id :: NodeLookup(k, objects, metadata, id) == NodeLookup(k, old(objects), metadata, id)
      ensures forall did :: DidLookup(k, objects, metadata, did) == DidLookup(k, old(objects), metadata, did)
    {
      c := k.hash(d);
      ghost var more := objects[c := d];
      PutExtends(k, objects, d);
      TableInvExtends(k, objects, more, metadata);
      LookupsExtend(k, objects, more, metadata);
      objects := objects[c := d];
    }

    /** `Nodes`: an iterator over the byte range of the nodes table, in key order. */
    method Nodes() returns (list: seq<Bytes>)
      ensures StrictlySorted(list) && Elements(list) == NodeIds(metadata)
    {
      list := [];
      var left := set key | key in metadata && !Less(key, [NodesPrefix]) && Less(key, [NodesPrefix + 1]);
      forall key ensures key in left <==> key in metadata && InTable(key, NodesPrefix) {
        RangeIsPrefix(key, NodesPrefix);
      }
      while left != {}
        invariant forall key :: key in left ==> key in metadata && InTable(key, NodesPrefix)
        invariant forall key :: key in metadata && InTable(key, NodesPrefix) ==> key in left || key[1..] in list
        invariant forall i :: 0 <= i < |list| ==> list[i] in NodeIds(metadata)
        invariant StrictlySorted(list)
        invariant forall i, key :: 0 <= i < |list| && key in left ==> Less(list[i], key[1..])
        decreases left
      {
        ghost var first := LeastExists(left);
        var key :| key in left && forall x :: x in left ==> !Less(x, key);
        var rest := left - {key};
        forall other | other in rest ensures Less(key[1..], other[1..]) {
          LessTotal(key, other);
        }
        list := list + [key[1..]];
        left := rest;
      }
      assert Elements(list) == NodeIds(metadata);
    }

    method Node(id: Bytes) returns (r: NodeAnswer)
      requires Valid()
      ensures r == NodeAnswerOf(history, id)
      ensures r.NodeFound? <==> id in NodeIds(metadata)
    {
      NodeIffListed(k, objects, metadata, id);
      NodeFollowsHistory(k, objects, metadata, history, id);
      var key := TypedKey(NodesPrefix, [id]);
      if key !in metadata {
        return NodeMissing;
      }
      var t := GetTx(k, objects, metadata[key]);
      if t.None? {
        return NodeError;
      }
      if t.value.kind != KindNode {
        return NodeError;
      }
      if t.value.action == ActionRevoke {
        return NodeMissing;
      }
      r := NodeFound(t.value.data);
    }

    method LookupDID(did: Bytes) returns (r: DidAnswer)
      requires Valid()
      ensures r == match LastDidTx(history, did)
                   case None => DidMissing
                   case Some(t) => if t.action == ActionRevoke then DidMissing else DocumentFound(t.data.document)
    {
      LookupFollowsHistory(k, objects, metadata, history, did);
      var key := TypedKey(DidPrefix, [did]);
      if key !in metadata {
        return DidMissing;
      }
      var t := GetTx(k, objects, metadata[key]);
      if t.None? || t.value.kind != KindDid || !t.value.data.DidData? {
        return DidError;
      }
      r := DocumentFound(t.value.data.document);
    }

    /** `MarkBlock` outside a test.  The mark is set whatever happens next.  At the edge from
        Validated to Accepted the block is indexed completely and becomes the latest block, or the
        rest of the table is as it was. */
    method MarkBlock(b: Cid, st: nat, pinned: bool) returns (ok: bool, ghost order: seq<Cid>)
      requires Valid() && st < 256
      modifies this`metadata, this`history
      ensures Valid() && StateOf(metadata, b) == st
      ensures !ok ==> metadata == Marked(old(metadata), b, st) && history == old(history)
      ensures !(StateOf(old(metadata), b) == Validated && st == Accepted) ==>
                ok && metadata == Marked(old(metadata), b, st) && history == old(history)
      ensures StateOf(old(metadata), b) == Validated && st == Accepted && ok ==>
                && BlockTxs(k, objects, b).Some? && IsOrder(order, BlockTxs(k, objects, b).value)
                && history == old(history) + BlockEntries(k, objects, b, order)
                && var all := PutAll(Marked(old(metadata), b, st), BlockEntries(k, objects, b, order));
                   all.Some? && metadata == all.value[Key(LatestBlockPrefix, []) := b]
    {
      order := [];
      var key := TypedKey(BlockStatePrefix, [b]);
      var current := StateOf(metadata, b);
      MarkedKeeps(k, objects, metadata, b, st);
      FollowsOther(metadata, history, key, StateBytes(st));
      metadata := metadata[key := StateBytes(st)];
      ok := true;
      if current == Validated && st == Accepted {
        ok, order := IndexBlock(b, pinned);
        if !ok {
          return;
        }
        var latest := TypedKey(LatestBlockPrefix, []);
        FollowsOther(metadata, history, latest, b);
        metadata := metadata[latest := b];
        LatestKeeps(k, objects, old(metadata), metadata, b, st, order);
      }
    }

    /** `indexBlock`: a batch is filled and committed at the end, so it is all or nothing. */
    method IndexBlock(b: Cid, pinned: bool) returns (ok: bool, ghost order: seq<Cid>)
      requires Valid()
      modifies this`metadata, this`history
      ensures Valid()
      ensures !ok ==> metadata == old(metadata) && history == old(history)
      ensures ok ==>
                && BlockTxs(k, objects, b).Some? && IsOrder(order, BlockTxs(k, objects, b).value)
                && PutAll(old(metadata), BlockEntries(k, objects, b, order)) == Some(metadata)
                && history == old(history) + BlockEntries(k, objects, b, order)
      ensures ok <==> pinned && BlockTxs(k, objects, b).Some? && AllSupported(BlockTxs(k, objects, b).value)
    {
      order := [];
      var block := GetBlock(k, objects, b);
      if block.None? {
        return false, [];
      }
      var txs := AllTxs(k, objects, block.value.txRoot);
      if txs.None? || !pinned {
        return false, [];
      }
      ReadStored(k, objects, block.value.txRoot);
      var batch;
      batch, order := FillBatch(b, txs.value);
      if batch.None? {
        return false, [];
      }
      ghost var es := BlockEntries(k, objects, b, order);
      PutAllKeeps(k, objects, metadata, es);
      FollowsPut(metadata, history, es);
      metadata := batch.value;
      history := history + es;
      ok := true;
    }

    method FillBatch(b: Cid, txs: map<Cid, Tx>) returns (batch: Option<Table>, ghost order: seq<Cid>)
      requires forall c :: c in txs ==> GetTx(k, objects, c) == Some(txs[c])
      ensures batch.Some? ==>
                && IsOrder(order, txs) && (forall c :: c in order ==> c in txs)
                && EntriesStored(k, objects, EntriesOf(b, order, txs))
                && batch == PutAll(metadata, EntriesOf(b, order, txs))
      ensures batch.Some? <==> AllSupported(txs)
    {
      order := [];
      var tbl := metadata;
      var todo := txs.Keys;
      while todo != {}
        invariant todo <= txs.Keys && NoDuplicates(order) && Elements(order) == txs.Keys - todo
        invariant forall c :: c in order ==> c in txs
        invariant PutAll(metadata, EntriesOf(b, order, txs)) == Some(tbl)
        invariant forall c :: c in order ==> Supported(txs[c])
        decreases todo
      {
        var c :| c in todo;
        assert c !in Elements(order) && Elements(order + [c]) == Elements(order) + {c};
        BatchOneMore(metadata, tbl, b, order, c, txs);
        todo := todo - {c};
        order := order + [c];
        var key := TypedKey(TxBlockPrefix, [c]);
        tbl := tbl[key := b];
        var next := PutTx(tbl, c, txs[c]);
        if next.None? {
          return None, order;
        }
        tbl := next.value;
      }
      forall c | c in txs ensures Supported(txs[c]) {
        assert c in Elements(order);
      }
      batch := Some(tbl);
    }
  }

  lemma LookupsExtend(k: Codec, objs: Objects, more: Objects, tbl: Table)
    requires TableInv(k, objs, tbl) && Extends(objs, more)
    ensures forall id :: NodeLookup(k, more, tbl, id) == NodeLookup(k, objs, tbl, id)
    ensures forall did :: DidLookup(k, more, tbl, did) == DidLookup(k, objs, tbl, did)
  {
    forall id ensures NodeLookup(k, more, tbl, id) == NodeLookup(k, objs, tbl, id) {
      assert InTable(Key(NodesPrefix, [id]), NodesPrefix);
    }
    forall did ensures DidLookup(k, more, tbl, did) == DidLookup(k, objs, tbl, did) {
      assert InTable(Key(DidPrefix, [did]), DidPrefix);
    }
  }

  lemma BatchOneMore(before: Table, tbl: Table, b: Cid, order: seq<Cid>, c: Cid, txs: map<Cid, Tx>)
    requires c in txs && (forall d :: d in order ==> d in txs)
    requires PutAll(before, EntriesOf(b, order, txs)) == Some(tbl)
    ensures PutAll(before, EntriesOf(b, order + [c], txs)) == PutTx(tbl[Key(TxBlockPrefix, [c]) := b], c, txs[c])
    ensures PutTx(tbl[Key(TxBlockPrefix, [c]) := b], c, txs[c]).Some? <==> Supported(txs[c])
  {
    var es := EntriesOf(b, order + [c], txs);
    EntriesAppend(b, order, c, txs);
    assert es[..|es| - 1] == EntriesOf(b, order, txs);
  }

  ghost predicate AllSupported(txs: map<Cid, Tx>) {
    forall c :: c in txs ==> Supported(txs[c])
  }

  lemma ReadStored(k: Codec, objs: Objects, root: Cid)
    requires ReadAll(k, objs, root).Some?
    ensures var txs := ReadAll(k, objs, root).value;
            forall c :: c in txs ==> GetTx(k, objs, c) == Some(txs[c])
  {
  }

  lemma LatestKeeps(k: Codec, objs: Objects, before: Table, after: Table, b: Cid, st: nat, order: seq<Cid>)
    requires Sound(k) && st < 256 && BlockTxs(k, objs, b).Some? && IsOrder(order, BlockTxs(k, objs, b).value)
    requires var all := PutAll(Marked(before, b, st), BlockEntries(k, objs, b, order));
             all.Some? && TableInv(k, objs, all.value) && after == all.value[Key(LatestBlockPrefix, []) := b]
    ensures TableInv(k, objs, after) && StateOf(after, b) == st
  {
    StateKept(Marked(before, b, st), BlockEntries(k, objs, b, order), b);
    assert Key(LatestBlockPrefix, []) == [LatestBlockPrefix];
    OtherTable(BlockStatePrefix, b, LatestBlockPrefix, []);
  }

  lemma {:induction false} StateKept(tbl: Table, es: seq<Entry>, b: Cid)
    requires PutAll(tbl, es).Some?
    ensures Lookup(PutAll(tbl, es).value, Key(BlockStatePrefix, [b])) == Lookup(tbl, Key(BlockStatePrefix, [b]))
  {
    if es != [] {
      var e := es[|es| - 1];
      StateKept(tbl, es[..|es| - 1], b);
      OtherTable(BlockStatePrefix, b, TxBlockPrefix, [e.id]);
      if e.tx.kind == KindNode {
        OtherTable(BlockStatePrefix, b, NodesPrefix, [e.tx.data.id]);
      } else {
        OtherTable(BlockStatePrefix, b, DidPrefix, [e.tx.data.document.id]);
        OtherTable(BlockStatePrefix, b, DidHistoryPrefix, [e.tx.data.document.id, e.id]);
      }
    }
  }
}
