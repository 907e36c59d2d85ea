/** The block validator over the in-memory store: transactions are checked against, and applied to,
    a test copy of the store, in whatever order Go visits the block's transaction map. */
module Validator {
  import opened Bytes
  import opened Objects
  import opened TxSets
  import opened Indexes
  import opened MemStores

  /** Document structure and signatures: does a key of the document sign the transaction, taken
      without its own signature? */
  datatype Checks = Checks(wellFormed: Document -> bool, signs: (Document, Bytes, Tx) -> bool)

  datatype Verdict =
    | Valid
    | VersionNotSupported | MissingTimestamp | MissingFrom | MissingData | UnsupportedType
    | OpNotSupported | DidInvalid | DidAlreadyExists | DidInvalidSignature

  datatype Found = Doc(document: Document) | NotFound | Broken

  // --------------------------------------------------------------------------------------------
  // Single transactions
  // --------------------------------------------------------------------------------------------

  /** The DID is indexed and the object it is indexed at is stored. */
  predicate Taken(ix: Index, objs: Objects, did: Bytes) {
    did in ix.dids && ix.dids[did] in objs
  }

  /** `MemStore.LookupDID`, which decodes the indexed object as a document. */
  function LookupDid(k: Codec, ix: Index, objs: Objects, did: Bytes): Found {
    if !Taken(ix, objs, did) then NotFound
    else match k.decodeDocument(objs[ix.dids[did]])
      case None => Broken
      case Some(d) => Doc(d)
  }

  /** `isDIDTxValid`.  When an update or a revocation finds no document, the error that is wrapped
      and returned is nil, so it passes. */
  function DidVerdict(k: Codec, ch: Checks, ix: Index, objs: Objects, t: Tx): Verdict
    requires t.data.DidData?
  {
    var doc := t.data.document;
    var found := LookupDid(k, ix, objs, doc.id);
    var unsigned := t.(signature := []);
    if !ch.wellFormed(doc) then DidInvalid
    else if t.action == ActionAdd then
      if found != NotFound then DidAlreadyExists
      else if !ch.signs(doc, t.signature, unsigned) then DidInvalidSignature
      else Valid
    else if t.action == ActionUpdate || t.action == ActionRevoke then
      if !found.Doc? then Valid
      else if !ch.signs(found.document, t.signature, unsigned) then DidInvalidSignature
      else Valid
    else OpNotSupported
  }

  function TxVerdict(k: Codec, ch: Checks, ix: Index, objs: Objects, t: Tx): Verdict
    requires Assertable(t)
  {
    if t.version != 1 then VersionNotSupported
    else if t.ts == 0 then MissingTimestamp
    else if t.from == [] then MissingFrom
    else if t.data.NoData? then MissingData
    else if t.kind == KindDid then DidVerdict(k, ch, ix, objs, t)
    else if t.kind == KindVc then Valid
    else if t.kind == KindNode then OpNotSupported
    else UnsupportedType
  }

  // --------------------------------------------------------------------------------------------
  // Blocks
  // --------------------------------------------------------------------------------------------

  /** The transaction is indexed under a block that is stored. */
  predicate AlreadyInBlock(ix: Index, objs: Objects, id: Cid) {
    id in ix.txBlock && ix.txBlock[id] in objs
  }

  predicate Passes(k: Codec, ch: Checks, ix: Index, objs: Objects, isNew: bool, id: Cid, t: Tx)
    requires Assertable(t)
  {
    TxVerdict(k, ch, ix, objs, t) == Valid && !(isNew && AlreadyInBlock(ix, objs, id))
  }

  /** The loop of `IsBlockValid`: the index of the test copy, or nothing if the block is refused. */
  function Check(k: Codec, ch: Checks, ix: Index, objs: Objects, isNew: bool, order: seq<Cid>,
      txs: map<Cid, Tx>): (r: Option<Index>)
    requires AssertableTxs(txs) && forall c :: c in order ==> c in txs
  {
    if order == [] then Some(ix)
    else
      var n := |order| - 1;
      match Check(k, ch, ix, objs, isNew, order[..n], txs)
      case None => None
      case Some(test) =>
        if Passes(k, ch, test, objs, isNew, order[n], txs[order[n]])
        then Some(ApplyTx(test, order[n], txs[order[n]])) else None
  }

  lemma ApplyIgnoresBlocks(ix: Index, id: Cid, t: Tx, blocks: map<Cid, Cid>)
    requires Assertable(t)
    ensures ApplyTx(ix.(txBlock := blocks), id, t) == ApplyTx(ix, id, t).(txBlock := blocks)
  {
  }

  /** The index of the test copy is the fold of the transactions, but for the block index. */
  lemma {:induction false} CheckFolds(k: Codec, ch: Checks, ix: Index, objs: Objects, isNew: bool, order: seq<Cid>,
      txs: map<Cid, Tx>, b: Cid)
    requires AssertableTxs(txs) && (forall c :: c in order ==> c in txs)
    requires Check(k, ch, ix, objs, isNew, order, txs).Some?
    ensures Check(k, ch, ix, objs, isNew, order, txs).value ==
            Fold(ix, EntriesOf(b, order, txs)).(txBlock := ix.txBlock)
  {
    if order != [] {
      var n := |order| - 1;
      CheckFolds(k, ch, ix, objs, isNew, order[..n], txs, b);
      var es := EntriesOf(b, order, txs);
      assert es[..n] == EntriesOf(b, order[..n], txs);
      var before := Fold(ix, es[..n]);
      ApplyIgnoresBlocks(before, order[n], txs[order[n]], ix.txBlock);
      ApplyIgnoresBlocks(before, order[n], txs[order[n]], before.txBlock[order[n] := b]);
    }
  }

  /** Every prefix of an accepted order was accepted, and the next transaction passed on it. */
  lemma {:induction false} CheckPrefix(k: Codec, ch: Checks, ix: Index, objs: Objects, isNew: bool,
      order: seq<Cid>, txs: map<Cid, Tx>, i: nat)
    requires AssertableTxs(txs) && (forall c :: c in order ==> c in txs)
    requires Check(k, ch, ix, objs, isNew, order, txs).Some? && i < |order|
    ensures Check(k, ch, ix, objs, isNew, order[..i], txs).Some?
    ensures Passes(k, ch, Check(k, ch, ix, objs, isNew, order[..i], txs).value, objs, isNew, order[i], txs[order[i]])
  {
    var n := |order| - 1;
    if i < n {
      CheckPrefix(k, ch, ix, objs, isNew, order[..n], txs, i);
      assert order[..n][..i] == order[..i];
    }
  }

  /** The object at which a DID is indexed once the transactions of the order have been applied. */
  ghost function IndexedAt(ix: Index, order: seq<Cid>, txs: map<Cid, Tx>, did: Bytes): Option<Cid>
    requires forall c :: c in order ==> c in txs
  {
    LastDid(ix, EntriesOf([], order, txs), did)
  }

  /** An Add is on a DID without a stored object and is signed by its own document; an Update or a Revoke
      is signed by the document found, if there is one. */
  ghost predicate DidAdmissible(k: Codec, ch: Checks, objs: Objects, at: Option<Cid>, t: Tx)
    requires t.data.DidData?
  {
    var unsigned := t.(signature := []);
    && ch.wellFormed(t.data.document)
    && (t.action == ActionAdd || t.action == ActionUpdate || t.action == ActionRevoke)
    && (t.action == ActionAdd ==>
          !(at.Some? && at.value in objs) && ch.signs(t.data.document, t.signature, unsigned))
    && (t.action != ActionAdd && at.Some? && at.value in objs && k.decodeDocument(objs[at.value]).Some? ==>
          ch.signs(k.decodeDocument(objs[at.value]).value, t.signature, unsigned))
  }

  /** What the i-th transaction visited has to be like for the block to be accepted. */
  ghost predicate Admissible(k: Codec, ch: Checks, ix: Index, objs: Objects, isNew: bool, order: seq<Cid>,
      txs: map<Cid, Tx>, i: nat)
    requires AssertableTxs(txs) && (forall c :: c in order ==> c in txs) && i < |order|
  {
    var id, t := order[i], txs[order[i]];
    && t.version == 1 && t.ts != 0 && t.from != [] && t.data != NoData
    && (t.kind == KindVc ||
        (t.kind == KindDid && DidAdmissible(k, ch, objs, IndexedAt(ix, order[..i], txs, t.data.document.id), t)))
    && (isNew ==> !(id in ix.txBlock && ix.txBlock[id] in objs))
  }

  ghost predicate AllAdmissible(k: Codec, ch: Checks, ix: Index, objs: Objects, isNew: bool, order: seq<Cid>,
      txs: map<Cid, Tx>)
    requires AssertableTxs(txs) && forall c :: c in order ==> c in txs
  {
    forall i :: 0 <= i < |order| ==> Admissible(k, ch, ix, objs, isNew, order, txs, i)
  }

  /** The verdict on one transaction, in the test index that the earlier ones left. */
  lemma PassesExactly(k: Codec, ch: Checks, ix: Index, test: Index, objs: Objects, isNew: bool, order: seq<Cid>,
      txs: map<Cid, Tx>)
    requires AssertableTxs(txs) && order != [] && forall c :: c in order ==> c in txs
    requires var n := |order| - 1;
             && test.txBlock == ix.txBlock
             && forall did :: Lookup(test.dids, did) == IndexedAt(ix, order[..n], txs, did)
    ensures var n := |order| - 1;
            Passes(k, ch, test, objs, isNew, order[n], txs[order[n]]) <==>
            Admissible(k, ch, ix, objs, isNew, order, txs, n)
  {
    var n := |order| - 1;
    var t := txs[order[n]];
    if t.kind == KindDid {
      assert Lookup(test.dids, t.data.document.id) == IndexedAt(ix, order[..n], txs, t.data.document.id);
    }
  }

  /** A block is accepted in an order exactly if every transaction is admissible where it is visited. */
  lemma {:induction false} AcceptedExactly(k: Codec, ch: Checks, ix: Index, objs: Objects, isNew: bool,
      order: seq<Cid>, txs: map<Cid, Tx>)
    requires AssertableTxs(txs) && forall c :: c in order ==> c in txs
    ensures Check(k, ch, ix, objs, isNew, order, txs).Some? <==> AllAdmissible(k, ch, ix, objs, isNew, order, txs)
  {
    if order != [] {
      var n := |order| - 1;
      AcceptedExactly(k, ch, ix, objs, isNew, order[..n], txs);
      AdmissiblePrefix(k, ch, ix, objs, isNew, order, txs);
      if Check(k, ch, ix, objs, isNew, order[..n], txs).Some? {
        var test := Check(k, ch, ix, objs, isNew, order[..n], txs).value;
        CheckLooks(k, ch, ix, objs, isNew, order[..n], txs);
        PassesExactly(k, ch, ix, test, objs, isNew, order, txs);
      }
    }
  }

  lemma AdmissiblePrefix(k: Codec, ch: Checks, ix: Index, objs: Objects, isNew: bool, order: seq<Cid>,
      txs: map<Cid, Tx>)
    requires AssertableTxs(txs) && order != [] && forall c :: c in order ==> c in txs
    ensures var n := |order| - 1;
            AllAdmissible(k, ch, ix, objs, isNew, order, txs) <==>
            AllAdmissible(k, ch, ix, objs, isNew, order[..n], txs) && Admissible(k, ch, ix, objs, isNew, order, txs, n)
  {
    var n := |order| - 1;
    forall i | 0 <= i < n
      ensures Admissible(k, ch, ix, objs, isNew, order[..n], txs, i) <==>
              Admissible(k, ch, ix, objs, isNew, order, txs, i)
    {
      assert order[..n][..i] == order[..i];
    }
  }

  lemma CheckLooks(k: Codec, ch: Checks, ix: Index, objs: Objects, isNew: bool, order: seq<Cid>, txs: map<Cid, Tx>)
    requires AssertableTxs(txs) && (forall c :: c in order ==> c in txs)
    requires Check(k, ch, ix, objs, isNew, order, txs).Some?
    ensures var test := Check(k, ch, ix, objs, isNew, order, txs).value;
            && test.txBlock == ix.txBlock
            && forall did :: Lookup(test.dids, did) == IndexedAt(ix, order, txs, did)
  {
    CheckFolds(k, ch, ix, objs, isNew, order, txs, []);
    forall did ensures Lookup(Fold(ix, EntriesOf([], order, txs)).dids, did) == IndexedAt(ix, order, txs, did) {
      FoldMeaning(ix, EntriesOf([], order, txs), [], did, []);
    }
  }

  /** A DID that a visited transaction touches is taken from then on. */
  lemma {:induction false} VisitedTaken(k: Codec, ch: Checks, ix: Index, objs: Objects, isNew: bool,
      order: seq<Cid>, txs: map<Cid, Tx>, did: Bytes)
    requires AssertableTxs(txs) && (forall c :: c in order ==> c in txs && c in objs)
    requires Check(k, ch, ix, objs, isNew, order, txs).Some?
    ensures Taken(Check(k, ch, ix, objs, isNew, order, txs).value, objs, did) <==>
            Taken(ix, objs, did) || exists i :: 0 <= i < |order| && DecidesDid(txs[order[i]], did)
    ensures Check(k, ch, ix, objs, isNew, order, txs).value.txBlock == ix.txBlock
  {
    if order != [] {
      var n := |order| - 1;
      VisitedTaken(k, ch, ix, objs, isNew, order[..n], txs, did);
      var before := exists i :: 0 <= i < n && DecidesDid(txs[order[..n][i]], did);
      assert before <==> exists i :: 0 <= i < n && DecidesDid(txs[order[i]], did);
    }
  }

  /** In every visiting order, an accepted block holds no node transaction, and an Add only for a
      DID that is not taken before and that no transaction visited earlier touches; so there is at
      most one Add for a DID. */
  lemma AcceptedAdds(k: Codec, ch: Checks, ix: Index, objs: Objects, isNew: bool, order: seq<Cid>,
      txs: map<Cid, Tx>, i: nat, j: nat)
    requires AssertableTxs(txs) && (forall c :: c in order ==> c in txs && c in objs)
    requires Check(k, ch, ix, objs, isNew, order, txs).Some? && i < |order| && j < |order|
    ensures txs[order[i]].kind != KindNode && txs[order[i]].version == 1
    ensures isNew ==> !AlreadyInBlock(ix, objs, order[i])
    ensures var t := txs[order[j]];
            t.kind == KindDid && t.action == ActionAdd ==>
              && !Taken(ix, objs, t.data.document.id)
              && (i < j ==> !DecidesDid(txs[order[i]], t.data.document.id))
  {
    CheckPrefix(k, ch, ix, objs, isNew, order, txs, i);
    CheckPrefix(k, ch, ix, objs, isNew, order, txs, j);
    VisitedTaken(k, ch, ix, objs, isNew, order[..i], txs, []);
    var t := txs[order[j]];
    if t.kind == KindDid {
      VisitedTaken(k, ch, ix, objs, isNew, order[..j], txs, t.data.document.id);
      if i < j {
        assert order[..j][i] == order[i];
      }
    }
  }

  // --------------------------------------------------------------------------------------------
  // The visiting order
  // --------------------------------------------------------------------------------------------

  /** The DID of a transaction not visited yet looks as it did at the start. */
  lemma {:induction false} UntouchedDid(k: Codec, ch: Checks, ix: Index, objs: Objects, isNew: bool,
      order: seq<Cid>, txs: map<Cid, Tx>, did: Bytes)
    requires AssertableTxs(txs) && (forall c :: c in order ==> c in txs)
    requires Check(k, ch, ix, objs, isNew, order, txs).Some?
    requires forall i :: 0 <= i < |order| ==> !DecidesDid(txs[order[i]], did)
    ensures LookupDid(k, Check(k, ch, ix, objs, isNew, order, txs).value, objs, did) == LookupDid(k, ix, objs, did)
    ensures Check(k, ch, ix, objs, isNew, order, txs).value.txBlock == ix.txBlock
  {
    if order != [] {
      UntouchedDid(k, ch, ix, objs, isNew, order[..|order| - 1], txs, did);
    }
  }

  ghost predicate AllPass(k: Codec, ch: Checks, ix: Index, objs: Objects, isNew: bool, order: seq<Cid>,
      txs: map<Cid, Tx>)
    requires AssertableTxs(txs) && forall c :: c in order ==> c in txs
  {
    forall c :: c in order ==> Passes(k, ch, ix, objs, isNew, c, txs[c])
  }

  /** With pairwise different DIDs the block is accepted exactly if each transaction passes on its
      own against the index as it was. */
  lemma {:induction false} AcceptedIffAllPass(k: Codec, ch: Checks, ix: Index, objs: Objects, isNew: bool,
      order: seq<Cid>, txs: map<Cid, Tx>)
    requires AssertableTxs(txs) && Independent(txs) && NoDuplicates(order) && forall c :: c in order ==> c in txs
    ensures Check(k, ch, ix, objs, isNew, order, txs).Some? <==> AllPass(k, ch, ix, objs, isNew, order, txs)
  {
    if order != [] {
      var n := |order| - 1;
      AcceptedIffAllPass(k, ch, ix, objs, isNew, order[..n], txs);
      assert order == order[..n] + [order[n]];
      if Check(k, ch, ix, objs, isNew, order[..n], txs).Some? {
        PassesAsAtStart(k, ch, ix, objs, isNew, order, txs);
      }
    }
  }

  lemma PassesAsAtStart(k: Codec, ch: Checks, ix: Index, objs: Objects, isNew: bool, order: seq<Cid>, txs: map<Cid, Tx>)
    requires AssertableTxs(txs) && Independent(txs) && NoDuplicates(order) && order != []
      && forall c :: c in order ==> c in txs
    requires Check(k, ch, ix, objs, isNew, order[..|order| - 1], txs).Some?
    ensures var n := |order| - 1;
            Passes(k, ch, Check(k, ch, ix, objs, isNew, order[..n], txs).value, objs, isNew, order[n],
                   txs[order[n]]) <==>
            Passes(k, ch, ix, objs, isNew, order[n], txs[order[n]])
  {
    var n := |order| - 1;
    var t := txs[order[n]];
    if t.kind == KindDid {
      UntouchedDid(k, ch, ix, objs, isNew, order[..n], txs, t.data.document.id);
    } else {
      CheckFolds(k, ch, ix, objs, isNew, order[..n], txs, []);
    }
    PassesSame(k, ch, Check(k, ch, ix, objs, isNew, order[..n], txs).value, ix, objs, isNew, order[n], t);
  }

  /** For pairwise different DIDs and nodes, the verdict and the index of the test copy are the
      same in all visiting orders. */
  lemma OrderDoesNotMatter(k: Codec, ch: Checks, ix: Index, objs: Objects, isNew: bool, o1: seq<Cid>, o2: seq<Cid>,
      txs: map<Cid, Tx>)
    requires AssertableTxs(txs) && Independent(txs) && IsOrder(o1, txs) && IsOrder(o2, txs)
    requires (forall c :: c in o1 ==> c in txs) && (forall c :: c in o2 ==> c in txs)
    ensures Check(k, ch, ix, objs, isNew, o1, txs) == Check(k, ch, ix, objs, isNew, o2, txs)
  {
    AcceptedIffAllPass(k, ch, ix, objs, isNew, o1, txs);
    AcceptedIffAllPass(k, ch, ix, objs, isNew, o2, txs);
    forall c ensures c in o1 <==> c in o2 {
      assert c in Elements(o1) <==> c in Elements(o2);
    }
    if Check(k, ch, ix, objs, isNew, o1, txs).Some? {
      CheckFolds(k, ch, ix, objs, isNew, o1, txs, []);
      CheckFolds(k, ch, ix, objs, isNew, o2, txs, []);
      OrderIrrelevant(ix, [], o1, o2, txs);
    }
  }

  /** The verdict looks at the index only through the transaction's own DID and block. */
  lemma PassesSame(k: Codec, ch: Checks, ix: Index, iy: Index, objs: Objects, isNew: bool, id: Cid, t: Tx)
    requires Assertable(t) && ix.txBlock == iy.txBlock
    requires t.kind == KindDid ==>
               LookupDid(k, ix, objs, t.data.document.id) == LookupDid(k, iy, objs, t.data.document.id)
    ensures Passes(k, ch, ix, objs, isNew, id, t) <==> Passes(k, ch, iy, objs, isNew, id, t)
  {
  }

  predicate SameDid(t: Tx, u: Tx) {
    u.kind == KindDid && u.data.DidData? && DecidesDid(t, u.data.document.id)
  }

  /** Each transaction passes against the index as it was, and also right after any other
      transaction of the block on its DID. */
  ghost predicate PassesPairwise(k: Codec, ch: Checks, ix: Index, objs: Objects, isNew: bool, txs: map<Cid, Tx>)
    requires AssertableTxs(txs)
  {
    && (forall d :: d in txs ==> Passes(k, ch, ix, objs, isNew, d, txs[d]))
    && (forall c, d :: c in txs && d in txs && c != d && SameDid(txs[c], txs[d]) ==>
          Passes(k, ch, ApplyTx(ix, c, txs[c]), objs, isNew, d, txs[d]))
  }

  ghost predicate Accepts(k: Codec, ch: Checks, ix: Index, objs: Objects, isNew: bool, order: seq<Cid>,
      txs: map<Cid, Tx>)
    requires AssertableTxs(txs)
  {
    (forall c :: c in order ==> c in txs) && Check(k, ch, ix, objs, isNew, order, txs).Some?
  }

  ghost predicate AcceptedInEveryOrder(k: Codec, ch: Checks, ix: Index, objs: Objects, isNew: bool, txs: map<Cid, Tx>)
    requires AssertableTxs(txs)
  {
    forall order :: IsOrder(order, txs) ==> Accepts(k, ch, ix, objs, isNew, order, txs)
  }

  /** After a prefix a DID looks as it did at the start, or as right after the last transaction on it. */
  ghost predicate LooksAfter(k: Codec, ix: Index, test: Index, objs: Objects, order: seq<Cid>, txs: map<Cid, Tx>,
      did: Bytes)
    requires AssertableTxs(txs) && forall c :: c in order ==> c in txs
  {
    || LookupDid(k, test, objs, did) == LookupDid(k, ix, objs, did)
    || (exists c :: c in order && DecidesDid(txs[c], did) &&
          LookupDid(k, test, objs, did) == LookupDid(k, ApplyTx(ix, c, txs[c]), objs, did))
  }

  lemma {:induction false} LastVisited(k: Codec, ch: Checks, ix: Index, objs: Objects, isNew: bool,
      order: seq<Cid>, txs: map<Cid, Tx>, did: Bytes)
    requires AssertableTxs(txs) && (forall c :: c in order ==> c in txs)
    requires Check(k, ch, ix, objs, isNew, order, txs).Some?
    ensures LooksAfter(k, ix, Check(k, ch, ix, objs, isNew, order, txs).value, objs, order, txs, did)
    ensures Check(k, ch, ix, objs, isNew, order, txs).value.txBlock == ix.txBlock
  {
    if order != [] {
      var n := |order| - 1;
      LastVisited(k, ch, ix, objs, isNew, order[..n], txs, did);
      var before := Check(k, ch, ix, objs, isNew, order[..n], txs).value;
      VisitOne(k, ix, before, objs, order, txs, did);
    }
  }

  lemma ApplyLooks(k: Codec, ix: Index, before: Index, objs: Objects, c: Cid, t: Tx, did: Bytes)
    requires Assertable(t)
    ensures LookupDid(k, ApplyTx(before, c, t), objs, did) ==
            if DecidesDid(t, did) then LookupDid(k, ApplyTx(ix, c, t), objs, did) else LookupDid(k, before, objs, did)
  {
  }

  lemma VisitOne(k: Codec, ix: Index, before: Index, objs: Objects, order: seq<Cid>, txs: map<Cid, Tx>, did: Bytes)
    requires AssertableTxs(txs) && order != [] && forall c :: c in order ==> c in txs
    requires LooksAfter(k, ix, before, objs, order[..|order| - 1], txs, did)
    ensures var c := order[|order| - 1];
            LooksAfter(k, ix, ApplyTx(before, c, txs[c]), objs, order, txs, did)
  {
    var c := order[|order| - 1];
    ApplyLooks(k, ix, before, objs, c, txs[c], did);
  }

  /** What passes pairwise passes after every prefix. */
  lemma PassesAnywhere(k: Codec, ch: Checks, ix: Index, test: Index, objs: Objects, isNew: bool,
      order: seq<Cid>, txs: map<Cid, Tx>, d: Cid)
    requires AssertableTxs(txs) && PassesPairwise(k, ch, ix, objs, isNew, txs) && d in txs && d !in order
    requires (forall c :: c in order ==> c in txs) && test.txBlock == ix.txBlock
    requires txs[d].kind == KindDid ==> LooksAfter(k, ix, test, objs, order, txs, txs[d].data.document.id)
    ensures Passes(k, ch, test, objs, isNew, d, txs[d])
  {
    var t := txs[d];
    if t.kind == KindDid && LookupDid(k, test, objs, t.data.document.id) != LookupDid(k, ix, objs, t.data.document.id) {
      var c :| c in order && DecidesDid(txs[c], t.data.document.id) &&
        LookupDid(k, test, objs, t.data.document.id) ==
        LookupDid(k, ApplyTx(ix, c, txs[c]), objs, t.data.document.id);
      assert SameDid(txs[c], t);
      PassesSame(k, ch, test, ApplyTx(ix, c, txs[c]), objs, isNew, d, t);
    } else {
      PassesSame(k, ch, test, ix, objs, isNew, d, t);
    }
  }

  lemma {:induction false} PairwiseAccepts(k: Codec, ch: Checks, ix: Index, objs: Objects, isNew: bool,
      order: seq<Cid>, txs: map<Cid, Tx>)
    requires AssertableTxs(txs) && PassesPairwise(k, ch, ix, objs, isNew, txs)
    requires NoDuplicates(order) && forall c :: c in order ==> c in txs
    ensures Check(k, ch, ix, objs, isNew, order, txs).Some?
  {
    if order != [] {
      var n := |order| - 1;
      PairwiseAccepts(k, ch, ix, objs, isNew, order[..n], txs);
      var test := Check(k, ch, ix, objs, isNew, order[..n], txs).value;
      var t := txs[order[n]];
      LastVisited(k, ch, ix, objs, isNew, order[..n], txs, if t.kind == KindDid then t.data.document.id else []);
      PassesAnywhere(k, ch, ix, test, objs, isNew, order[..n], txs, order[n]);
    }
  }

  lemma JoinedOrder(txs: map<Cid, Tx>, a: seq<Cid>, b: seq<Cid>)
    requires NoDuplicates(a) && NoDuplicates(b) && Elements(a) !! Elements(b)
    requires Elements(a) + Elements(b) == txs.Keys
    ensures IsOrder(a + b, txs)
  {
    NoDuplicatesJoin(a, b);
  }

  /** An order that begins with these, and one that ends with these. */
  lemma OrdersWith(txs: map<Cid, Tx>, part: seq<Cid>) returns (first: seq<Cid>, last: seq<Cid>)
    requires NoDuplicates(part) && forall c :: c in part ==> c in txs
    ensures IsOrder(first, txs) && part <= first
    ensures IsOrder(last, txs) && |part| <= |last| && last[|last| - |part|..] == part
  {
    var rest := Listed(txs.Keys - Elements(part));
    assert Elements(part) + Elements(rest) == txs.Keys == Elements(rest) + Elements(part);
    JoinedOrder(txs, part, rest);
    JoinedOrder(txs, rest, part);
    first, last := part + rest, rest + part;
  }

  /** A block is accepted in every order exactly if its transactions pass pairwise. */
  lemma AcceptedInEveryOrderIff(k: Codec, ch: Checks, ix: Index, objs: Objects, isNew: bool, txs: map<Cid, Tx>)
    requires AssertableTxs(txs)
    ensures AcceptedInEveryOrder(k, ch, ix, objs, isNew, txs) <==> PassesPairwise(k, ch, ix, objs, isNew, txs)
  {
    if PassesPairwise(k, ch, ix, objs, isNew, txs) {
      forall order | IsOrder(order, txs) ensures Accepts(k, ch, ix, objs, isNew, order, txs) {
        OrderKeys(order, txs);
        PairwiseAccepts(k, ch, ix, objs, isNew, order, txs);
      }
    }
    if AcceptedInEveryOrder(k, ch, ix, objs, isNew, txs) {
      forall d | d in txs ensures Passes(k, ch, ix, objs, isNew, d, txs[d]) {
        PassesFirst(k, ch, ix, objs, isNew, txs, d);
      }
      forall c, d | c in txs && d in txs && c != d && SameDid(txs[c], txs[d])
        ensures Passes(k, ch, ApplyTx(ix, c, txs[c]), objs, isNew, d, txs[d])
      {
        PassesSecond(k, ch, ix, objs, isNew, txs, c, d);
      }
    }
  }

  lemma PassesFirst(k: Codec, ch: Checks, ix: Index, objs: Objects, isNew: bool, txs: map<Cid, Tx>, d: Cid)
    requires AssertableTxs(txs) && AcceptedInEveryOrder(k, ch, ix, objs, isNew, txs) && d in txs
    ensures Passes(k, ch, ix, objs, isNew, d, txs[d])
  {
    var order, last := OrdersWith(txs, [d]);
    assert Accepts(k, ch, ix, objs, isNew, order, txs);
    CheckPrefix(k, ch, ix, objs, isNew, order, txs, 0);
    assert order[0] == d && order[..0] == [];
  }

  lemma PassesSecond(k: Codec, ch: Checks, ix: Index, objs: Objects, isNew: bool, txs: map<Cid, Tx>, c: Cid, d: Cid)
    requires AssertableTxs(txs) && AcceptedInEveryOrder(k, ch, ix, objs, isNew, txs) && c in txs && d in txs && c != d
    ensures Passes(k, ch, ApplyTx(ix, c, txs[c]), objs, isNew, d, txs[d])
  {
    var order, last := OrdersWith(txs, [c, d]);
    assert Accepts(k, ch, ix, objs, isNew, order, txs);
    CheckPrefix(k, ch, ix, objs, isNew, order, txs, 1);
    assert order[0] == c && order[1] == d && order[..1] == [c] && [c][..0] == [];
    assert Check(k, ch, ix, objs, isNew, [c], txs) == Some(ApplyTx(ix, c, txs[c]));
  }

  ghost predicate SameIndexInEveryOrder(k: Codec, ch: Checks, ix: Index, objs: Objects, isNew: bool, txs: map<Cid, Tx>)
    requires AssertableTxs(txs) && AcceptedInEveryOrder(k, ch, ix, objs, isNew, txs)
  {
    forall o1, o2 :: IsOrder(o1, txs) && IsOrder(o2, txs) ==>
      SameCheck(k, ch, ix, objs, isNew, o1, o2, txs)
  }

  ghost predicate SameCheck(k: Codec, ch: Checks, ix: Index, objs: Objects, isNew: bool, o1: seq<Cid>, o2: seq<Cid>,
      txs: map<Cid, Tx>)
    requires AssertableTxs(txs)
  {
    && (forall c :: c in o1 ==> c in txs) && (forall c :: c in o2 ==> c in txs)
    && Check(k, ch, ix, objs, isNew, o1, txs) == Check(k, ch, ix, objs, isNew, o2, txs)
  }

  /** The DID of the last transaction visited is indexed at that transaction. */
  lemma LastDecides(k: Codec, ch: Checks, ix: Index, objs: Objects, isNew: bool, order: seq<Cid>, txs: map<Cid, Tx>,
      did: Bytes)
    requires AssertableTxs(txs) && Accepts(k, ch, ix, objs, isNew, order, txs) && order != []
    requires DecidesDid(txs[order[|order| - 1]], did)
    ensures Lookup(Check(k, ch, ix, objs, isNew, order, txs).value.dids, did) == Some(order[|order| - 1])
  {
  }

  /** Two transactions on one DID leave different indexes behind, depending on which comes last. */
  lemma SharedDidDiffers(k: Codec, ch: Checks, ix: Index, objs: Objects, isNew: bool, txs: map<Cid, Tx>, c: Cid, d: Cid)
    requires AssertableTxs(txs) && AcceptedInEveryOrder(k, ch, ix, objs, isNew, txs)
    requires c in txs && d in txs && c != d && SameDid(txs[c], txs[d])
    ensures !SameIndexInEveryOrder(k, ch, ix, objs, isNew, txs)
  {
    var did := txs[d].data.document.id;
    var f1, o1 := OrdersWith(txs, [c]);
    var f2, o2 := OrdersWith(txs, [d]);
    assert o1[|o1| - 1] == o1[|o1| - 1..][0] == c && o2[|o2| - 1] == o2[|o2| - 1..][0] == d;
    LastDecides(k, ch, ix, objs, isNew, o1, txs, did);
    LastDecides(k, ch, ix, objs, isNew, o2, txs, did);
    assert !SameCheck(k, ch, ix, objs, isNew, o1, o2, txs);
  }

  /** A block that is accepted in every order leaves the same test index in every order exactly if no
      two of its transactions are on one DID. */
  lemma SameIndexIff(k: Codec, ch: Checks, ix: Index, objs: Objects, isNew: bool, txs: map<Cid, Tx>)
    requires AssertableTxs(txs) && AcceptedInEveryOrder(k, ch, ix, objs, isNew, txs)
    ensures SameIndexInEveryOrder(k, ch, ix, objs, isNew, txs) <==> Independent(txs)
  {
    if Independent(txs) {
      forall o1, o2 | IsOrder(o1, txs) && IsOrder(o2, txs) ensures SameCheck(k, ch, ix, objs, isNew, o1, o2, txs) {
        OrderKeys(o1, txs);
        OrderKeys(o2, txs);
        OrderDoesNotMatter(k, ch, ix, objs, isNew, o1, o2, txs);
      }
    } else {
      AcceptedInEveryOrderIff(k, ch, ix, objs, isNew, txs);
      var c, d := Dependent(txs);
      assert Passes(k, ch, ix, objs, isNew, c, txs[c]);
      SharedDidDiffers(k, ch, ix, objs, isNew, txs, c, d);
    }
  }

  lemma Dependent(txs: map<Cid, Tx>) returns (c: Cid, d: Cid)
    requires !Independent(txs)
    ensures c in txs && d in txs && c != d && (SameDid(txs[c], txs[d]) || txs[c].kind == KindNode)
  {
    c, d :| c in txs && d in txs && c != d &&
      ((txs[c].kind == txs[d].kind == KindDid && txs[c].data.DidData? && txs[d].data.DidData? &&
        txs[c].data.document.id == txs[d].data.document.id) ||
       (txs[c].kind == txs[d].kind == KindNode && txs[c].data.NodeData? && txs[d].data.NodeData? &&
        txs[c].data.id == txs[d].data.id));
  }

  lemma AddAfter(k: Codec, ch: Checks, ix: Index, objs: Objects, isNew: bool, a: Cid, add: Tx, u: Cid, t: Tx)
    requires Assertable(add) && Assertable(t) && add.action == ActionAdd && SameDid(t, add) && u in objs
    ensures !Passes(k, ch, ApplyTx(ix, u, t), objs, isNew, a, add)
  {
  }

  lemma AfterAdd(k: Codec, ch: Checks, ix: Index, objs: Objects, isNew: bool, a: Cid, add: Tx, u: Cid, t: Tx)
    requires Assertable(add) && Assertable(t) && SameDid(t, add) && a in objs && Passes(k, ch, ix, objs, isNew, u, t)
    requires t.action == ActionUpdate || t.action == ActionRevoke
    ensures Passes(k, ch, ApplyTx(ix, a, add), objs, isNew, u, t) <==>
            (k.decodeDocument(objs[a]).Some? ==>
               ch.signs(k.decodeDocument(objs[a]).value, t.signature, t.(signature := [])))
  {
  }

  /** So the order matters to every block with an Add and another transaction on its DID that is
      stored: visited after the other, the Add is refused. */
  lemma OrderMatters(k: Codec, ch: Checks, ix: Index, objs: Objects, isNew: bool, a: Cid, u: Cid, txs: map<Cid, Tx>)
    requires AssertableTxs(txs) && a != u && a in txs && u in txs && u in objs
    requires txs[a].action == ActionAdd && SameDid(txs[u], txs[a])
    ensures !AcceptedInEveryOrder(k, ch, ix, objs, isNew, txs)
  {
    AcceptedInEveryOrderIff(k, ch, ix, objs, isNew, txs);
    AddAfter(k, ch, ix, objs, isNew, a, txs[a], u, txs[u]);
  }

  lemma CheckTwo(k: Codec, ch: Checks, ix: Index, objs: Objects, isNew: bool, c: Cid, d: Cid, txs: map<Cid, Tx>)
    requires AssertableTxs(txs) && c in txs && d in txs && Passes(k, ch, ix, objs, isNew, c, txs[c])
    ensures Check(k, ch, ix, objs, isNew, [c, d], txs).Some? <==>
            Passes(k, ch, ApplyTx(ix, c, txs[c]), objs, isNew, d, txs[d])
  {
    assert [c, d][..1] == [c] && [c][..0] == [];
    assert Check(k, ch, ix, objs, isNew, [c], txs) == Some(ApplyTx(ix, c, txs[c]));
  }

  /** Both orders of an Add and an Update or Revoke that pass alone: the Add second is refused; the Add
      first is accepted exactly if what the Add's bytes decode to, if anything, signs the other. */
  lemma BothOrders(k: Codec, ch: Checks, ix: Index, objs: Objects, isNew: bool, a: Cid, u: Cid, txs: map<Cid, Tx>)
    requires AssertableTxs(txs) && a != u && a in txs && u in txs && a in objs && u in objs
    requires txs[a].action == ActionAdd && (txs[u].action == ActionUpdate || txs[u].action == ActionRevoke)
    requires SameDid(txs[u], txs[a])
    requires Passes(k, ch, ix, objs, isNew, a, txs[a]) && Passes(k, ch, ix, objs, isNew, u, txs[u])
    ensures Check(k, ch, ix, objs, isNew, [u, a], txs).None?
    ensures Check(k, ch, ix, objs, isNew, [a, u], txs).Some? <==>
            (k.decodeDocument(objs[a]).Some? ==>
               ch.signs(k.decodeDocument(objs[a]).value, txs[u].signature, txs[u].(signature := [])))
  {
    CheckTwo(k, ch, ix, objs, isNew, u, a, txs);
    AddAfter(k, ch, ix, objs, isNew, a, txs[a], u, txs[u]);
    CheckTwo(k, ch, ix, objs, isNew, a, u, txs);
    AfterAdd(k, ch, ix, objs, isNew, a, txs[a], u, txs[u]);
  }

  // --------------------------------------------------------------------------------------------
  // The live store
  // --------------------------------------------------------------------------------------------

  class TxValidator {
    var s: MemStore

    constructor (s: MemStore)
      ensures this.s == s
    {
      this.s := s;
    }

    /** `IsBlockValid`.  On every exit the validator is back on the live store, and the live store
        differs only in the block's mark, which is Unvalidated; the mark that records success goes
        to the test copy. */
    method IsBlockValid(ch: Checks, b: Block, isNew: bool) returns (ok: bool, ghost order: seq<Cid>)
      requires s.Valid()
      modifies this, s`txBlock, s`nodes, s`dids, s`marks
      ensures s == old(s) && s.Valid()
      ensures s.Snapshot() == old(s.Snapshot()).(marks := old(s.marks)[b.id := Unvalidated])
      ensures ReadAll(s.k, s.objects, b.txRoot).None? ==> !ok
      ensures ReadAll(s.k, s.objects, b.txRoot).Some? ==>
                var txs := ReadAll(s.k, s.objects, b.txRoot).value;
                && AssertableTxs(txs) && NoDuplicates(order) && (forall c :: c in order ==> c in txs)
                && (ok ==> IsOrder(order, txs))
                && ok == AllAdmissible(s.k, ch, s.Snapshot().index, s.objects, isNew, order, txs)
    {
      order := [];
      ghost var o;
      ok, o := s.MarkBlock(b.id, Unvalidated);
      var txs := s.AllTx(b.txRoot);
      if txs.None? {
        return false, [];
      }
      ReadAssertable(s.k, s.objects, b.txRoot);
      var ogs := s;
      s := ogs.StartTest();
      ok, order := TestApply(ch, txs.value, isNew);
      if ok {
        ok, o := s.MarkBlock(b.id, Validated);
      }
      s := ogs;
    }

    /** The loop over the transaction map, on the test copy. */
    method TestApply(ch: Checks, txs: map<Cid, Tx>, isNew: bool) returns (ok: bool, ghost order: seq<Cid>)
      requires s.Valid() && AssertableTxs(txs)
      modifies s`nodes, s`dids
      ensures s.Valid() && NoDuplicates(order) && (forall c :: c in order ==> c in txs) && (ok ==> IsOrder(order, txs))
      ensures ok == AllAdmissible(s.k, ch, old(s.Snapshot().index), s.objects, isNew, order, txs)
    {
      ghost var ix := s.Snapshot().index;
      ok, order := TestLoop(ch, txs, isNew);
      AcceptedExactly(s.k, ch, ix, s.objects, isNew, order, txs);
    }

    method TestLoop(ch: Checks, txs: map<Cid, Tx>, isNew: bool) returns (ok: bool, ghost order: seq<Cid>)
      requires s.Valid() && AssertableTxs(txs)
      modifies s`nodes, s`dids
      ensures s.Valid() && NoDuplicates(order) && (forall c :: c in order ==> c in txs) && (ok ==> IsOrder(order, txs))
      ensures ok == Check(s.k, ch, old(s.Snapshot().index), s.objects, isNew, order, txs).Some?
    {
      order := [];
      var todo := txs.Keys;
      while todo != {}
        invariant s.Valid() && todo <= txs.Keys && NoDuplicates(order) && Elements(order) == txs.Keys - todo
        invariant forall c :: c in order ==> c in txs
        invariant Check(s.k, ch, old(s.Snapshot().index), s.objects, isNew, order, txs) == Some(s.Snapshot().index)
        decreases todo
      {
        var id :| id in todo;
        assert id !in Elements(order) && Elements(order + [id]) == Elements(order) + {id};
        assert (order + [id])[..|order|] == order;
        todo := todo - {id};
        order := order + [id];
        var ix := Index(s.txBlock, s.nodes, s.dids);
        if TxVerdict(s.k, ch, ix, s.objects, txs[id]) != Valid {
          return false, order;
        }
        if isNew && AlreadyInBlock(ix, s.objects, id) {
          return false, order;
        }
        s.ApplyOne(id, txs[id]);
      }
      ok := true;
    }
  }

  /** Validating and then accepting, as the consensus engine does, never puts Validated on the live
      store, and then nothing is ever indexed: the indexes move only for a caller that marks the
      block Validated itself. */
  lemma {:induction false} AcceptingAloneIndexesNothing(k: Codec, s: Store, calls: seq<Call>)
    requires Sound(k) && Succeeds(k, s, calls)
    requires forall b :: b in s.marks ==> s.marks[b] != Validated
    requires forall i :: 0 <= i < |calls| && calls[i].MarkCall? ==> calls[i].state != Validated
    ensures CallAll(k, s, calls).index == s.index
    decreases |calls|
  {
    if calls != [] {
      AcceptingAloneIndexesNothing(k, After(k, s, calls[0]), calls[1..]);
    }
  }
}
