/** Blocks, transactions and transaction sets, and the content-addressed objects that hold them.

    Serialisation (msgpack) and hashing (SHA multihashes) are parameters: a `Codec` whose
    `Sound` predicate is the hypothesis under which results are stated.
 */
module Objects {
  import opened Bytes

  /** A CID is its byte string; the undefined CID is the empty one. */
  type Cid = Bytes
  const Undef: Cid := []

  const MaxBlockTxCount := 1000

  datatype Document = Document(id: Bytes, content: Bytes)

  const KindDid := 1
  const KindVc := 2
  const KindNode := 3

  const ActionAdd := 1
  const ActionUpdate := 2
  const ActionRevoke := 3

  datatype TxData =
    | NoData
    | DidData(document: Document)
    | VcData(raw: Bytes)
    | NodeData(id: Bytes, did: Bytes, key: Bytes)

  datatype Tx = Tx(version: int, ts: int, from: Bytes, kind: int, action: int, data: TxData, signature: Bytes)

  /** The data has the Go type that `Tx.Unmarshal` picks from the transaction's type. */
  predicate WellTyped(t: Tx) {
    || (t.kind == KindDid && t.data.DidData?)
    || (t.kind == KindVc && t.data.VcData?)
    || (t.kind == KindNode && t.data.NodeData?)
  }

  datatype Block = Block(id: Cid, parent: Cid, height: nat, proposer: Bytes, txRoot: Cid)

  datatype TxSet = TxSet(children: seq<Cid>, tx: Option<Cid>)

  type Blob = Bytes
  type Objects = map<Cid, Blob>

  datatype Codec = Codec(
    hash: Blob -> Cid,
    encodeSet: TxSet -> Blob,
    decodeSet: Blob -> Option<TxSet>,
    encodeTx: Tx -> Blob,
    decodeTx: Blob -> Option<Tx>,
    encodeBlock: Block -> Blob,
    decodeBlock: Blob -> Option<Block>,
    decodeDocument: Blob -> Option<Document>
  )

  /** An injective hash that never yields the undefined CID, and decoders that undo encoders.
      A transaction decodes only with the data its type calls for. */
  ghost predicate Sound(k: Codec) {
    && (forall a, b :: k.hash(a) == k.hash(b) ==> a == b)
    && (forall a :: k.hash(a) != Undef)
    && (forall s :: k.decodeSet(k.encodeSet(s)) == Some(s))
    && (forall b :: k.decodeBlock(k.encodeBlock(b)) == Some(b))
    && (forall t :: WellTyped(t) ==> k.decodeTx(k.encodeTx(t)) == Some(t))
    && (forall d :: k.decodeTx(d).Some? ==> WellTyped(k.decodeTx(d).value))
  }

  function GetSet(k: Codec, objs: Objects, c: Cid): Option<TxSet> {
    if c in objs then k.decodeSet(objs[c]) else None
  }

  function GetTx(k: Codec, objs: Objects, c: Cid): Option<Tx> {
    if c in objs then k.decodeTx(objs[c]) else None
  }

  function GetBlock(k: Codec, objs: Objects, c: Cid): Option<Block> {
    if c in objs then k.decodeBlock(objs[c]) else None
  }

  /** Every object sits under its own hash. */
  ghost predicate Addressed(k: Codec, objs: Objects) {
    forall c :: c in objs ==> k.hash(objs[c]) == c
  }

  ghost predicate Extends(objs: Objects, more: Objects) {
    forall c :: c in objs ==> c in more && more[c] == objs[c]
  }

  /** Storing an object never disturbs another one: the only object it could overwrite is itself. */
  lemma PutExtends(k: Codec, objs: Objects, d: Blob)
    requires Sound(k) && Addressed(k, objs)
    ensures Addressed(k, objs[k.hash(d) := d])
    ensures Extends(objs, objs[k.hash(d) := d])
  {
  }
}
