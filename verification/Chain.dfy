/** `NewTxSet`: sorting the transaction CIDs and reducing them to a stored Merkle root. */
module Chain {
  import opened Bytes
  import opened Objects
  import opened TxSets
  import opened MemStores

  /** The CIDs are the addresses of the trees of a level, and the trees are stored. */
  ghost predicate LevelStored(k: Codec, objs: Objects, nodes: seq<Cid>, level: seq<Tree>) {
    && |nodes| == |level|
    && forall i :: 0 <= i < |level| ==> nodes[i] == CidOf(k, level[i]) && Holds(k, objs, level[i])
  }

  lemma LevelExtends(k: Codec, objs: Objects, more: Objects, nodes: seq<Cid>, level: seq<Tree>)
    requires LevelStored(k, objs, nodes, level) && Extends(objs, more)
    ensures LevelStored(k, more, nodes, level)
  {
    forall i | 0 <= i < |level| ensures Holds(k, more, level[i]) {
      HoldsExtends(k, objs, more, level[i]);
    }
  }

  /** Storing the root set of a tree whose subtrees are stored completes the tree. */
  method PutSet(s: MemStore, txSet: TxSet, ghost t: Tree) returns (c: Cid)
    requires s.Valid() && txSet == SetOf(s.k, t)
    requires t.Node? ==> Holds(s.k, s.objects, t.left) && Holds(s.k, s.objects, t.right)
    modifies s`objects, s`puts
    ensures s.Valid() && s.puts == old(s.puts) + 1
    ensures Extends(old(s.objects), s.objects)
    ensures c == CidOf(s.k, t) && Holds(s.k, s.objects, t)
  {
    c := s.PutObject(s.k.encodeSet(txSet));
    if t.Node? {
      HoldsExtends(s.k, old(s.objects), s.objects, t.left);
      HoldsExtends(s.k, old(s.objects), s.objects, t.right);
    }
  }

  method PutLeaves(s: MemStore, txs: seq<Cid>) returns (nodes: seq<Cid>)
    requires s.Valid()
    modifies s`objects, s`puts
    ensures s.Valid() && s.puts == old(s.puts) + |txs|
    ensures Extends(old(s.objects), s.objects)
    ensures LevelStored(s.k, s.objects, nodes, Leaves(txs))
  {
    nodes := [];
    for i := 0 to |txs|
      invariant s.Valid() && s.puts == old(s.puts) + i
      invariant Extends(old(s.objects), s.objects)
      invariant LevelStored(s.k, s.objects, nodes, Leaves(txs)[..i])
    {
      ghost var before := s.objects;
      var c := PutSet(s, TxSet([], Some(txs[i])), Leaf(txs[i]));
      LevelExtends(s.k, before, s.objects, nodes, Leaves(txs)[..i]);
      nodes := nodes + [c];
      assert Leaves(txs)[..i + 1] == Leaves(txs)[..i] + [Leaf(txs[i])];
    }
    assert Leaves(txs)[..|txs|] == Leaves(txs);
  }

  method PutParents(s: MemStore, nodes: seq<Cid>, ghost level: seq<Tree>) returns (parents: seq<Cid>)
    requires s.Valid() && |nodes| % 2 == 0 && LevelStored(s.k, s.objects, nodes, level)
    modifies s`objects, s`puts
    ensures s.Valid() && s.puts == old(s.puts) + |nodes| / 2
    ensures Extends(old(s.objects), s.objects)
    ensures LevelStored(s.k, s.objects, parents, PairUp(level))
  {
    parents := [];
    var i := 0;
    while i < |nodes|
      invariant 0 <= i <= |nodes| && i % 2 == 0
      invariant s.Valid() && s.puts == old(s.puts) + i / 2
      invariant Extends(old(s.objects), s.objects)
      invariant LevelStored(s.k, s.objects, nodes, level)
      invariant LevelStored(s.k, s.objects, parents, PairUp(level)[..i / 2])
    {
      ghost var before := s.objects;
      ghost var t := Node(level[i], level[i + 1]);
      assert PairUp(level)[i / 2] == t;
      assert PairUp(level)[..(i + 2) / 2] == PairUp(level)[..i / 2] + [t];
      var c := PutSet(s, TxSet([nodes[i], nodes[i + 1]], None), t);
      LevelExtends(s.k, before, s.objects, nodes, level);
      LevelExtends(s.k, before, s.objects, parents, PairUp(level)[..i / 2]);
      parents := parents + [c];
      i := i + 2;
    }
    assert PairUp(level)[..|nodes| / 2] == PairUp(level);
  }

  lemma PadStored(k: Codec, objs: Objects, nodes: seq<Cid>, level: seq<Tree>)
    requires LevelStored(k, objs, nodes, level)
    ensures LevelStored(k, objs, Pad(nodes), Pad(level))
  {
  }

  lemma ReduceStep(level: seq<Tree>)
    requires |level| > 1
    ensures Reduce(PairUp(Pad(level))) == Reduce(level)
    ensures |PairUp(Pad(level))| == (|level| + 1) / 2
    ensures PairWrites(|level|) == |Pad(level)| / 2 + PairWrites(|PairUp(Pad(level))|)
  {
  }

  /** One level up: an odd level is completed, and its pairs are stored. */
  method PairLevel(s: MemStore, level: seq<Cid>, ghost trees: seq<Tree>) returns (parents: seq<Cid>)
    requires s.Valid() && |level| > 1 && LevelStored(s.k, s.objects, level, trees)
    modifies s`objects, s`puts
    ensures s.Valid() && Extends(old(s.objects), s.objects)
    ensures LevelStored(s.k, s.objects, parents, PairUp(Pad(trees)))
    ensures s.puts == old(s.puts) + |Pad(trees)| / 2
  {
    var nodes := level;
    if |nodes| % 2 == 1 {
      nodes := nodes + [nodes[|nodes| - 1]];
    }
    PadStored(s.k, s.objects, level, trees);
    parents := PutParents(s, nodes, Pad(trees));
  }

  /** The reduction: levels are completed, paired and stored until one node is left. */
  method StoreTree(s: MemStore, txs: seq<Cid>) returns (root: Cid)
    requires s.Valid() && |txs| > 0
    modifies s`objects, s`puts
    ensures s.Valid() && Extends(old(s.objects), s.objects)
    ensures root == Root(s.k, txs) && Holds(s.k, s.objects, BuildTree(txs))
    ensures s.puts == old(s.puts) + |txs| + PairWrites(|txs|)
  {
    var nodes := PutLeaves(s, txs);
    ghost var level := Leaves(txs);
    while |nodes| > 1
      invariant |nodes| == |level| > 0 && s.Valid()
      invariant Extends(old(s.objects), s.objects)
      invariant LevelStored(s.k, s.objects, nodes, level)
      invariant Reduce(level) == BuildTree(txs)
      invariant s.puts + PairWrites(|nodes|) == old(s.puts) + |txs| + PairWrites(|txs|)
      decreases |nodes|
    {
      ReduceStep(level);
      nodes := PairLevel(s, nodes, level);
      level := PairUp(Pad(level));
    }
    root := nodes[0];
  }

  /** The list is sorted in place; over the limit nothing is stored; otherwise the root of the
      tree of the sorted list is returned, the whole tree is stored, nothing stored before is
      lost, and one set per leaf plus one per pair is written.  An empty list has no root. */
  method NewTxSet(s: MemStore, txs: array<Cid>) returns (r: Option<(TxSet, Cid)>)
    requires s.Valid() && txs.Length > 0
    modifies txs, s`objects, s`puts
    ensures s.Valid() && Extends(old(s.objects), s.objects)
    ensures txs[..] == SortedOf(old(txs[..]))
    ensures r.None? <==> txs.Length > MaxBlockTxCount
    ensures r.None? ==> s.objects == old(s.objects)
    ensures r.Some? ==>
              && r.value == (SetOf(s.k, BuildTree(txs[..])), Root(s.k, txs[..]))
              && Holds(s.k, s.objects, BuildTree(txs[..]))
              && s.puts == old(s.puts) + txs.Length + PairWrites(txs.Length)
  {
    SortInPlace(txs);
    if txs.Length > MaxBlockTxCount {
      return None;
    }
    var root := StoreTree(s, txs[..]);
    r := Some((GetSet(s.k, s.objects, root).value, root));
  }

  method SortInPlace(a: array<Cid>)
    modifies a
    ensures a[..] == SortedOf(old(a[..]))
  {
    var sorted := SortedOf(a[..]);
    for i := 0 to a.Length
      invariant a[..i] == sorted[..i]
    {
      a[i] := sorted[i];
    }
    assert a[..] == a[..a.Length];
  }

  /** The root depends only on the multiset of transactions, not on their order. */
  lemma RootIgnoresOrder(k: Codec, xs: seq<Cid>, ys: seq<Cid>)
    requires |xs| > 0 && multiset(xs) == multiset(ys)
    ensures |ys| > 0 && Root(k, SortedOf(xs)) == Root(k, SortedOf(ys))
  {
    assert |xs| == |multiset(xs)| == |multiset(ys)| == |ys|;
    SortedUnique(SortedOf(xs), SortedOf(ys));
  }

  lemma SortedElements(xs: seq<Cid>)
    ensures Elements(SortedOf(xs)) == Elements(xs)
  {
    forall c ensures c in Elements(SortedOf(xs)) <==> c in Elements(xs) {
      assert c in SortedOf(xs) <==> c in multiset(SortedOf(xs));
      assert c in xs <==> c in multiset(xs);
    }
  }

  /** Without repeated transactions the root binds the set: equal roots exactly for equal sets. */
  lemma RootBindsSet(k: Codec, xs: seq<Cid>, ys: seq<Cid>)
    requires Sound(k) && |xs| > 0 && |ys| > 0 && NoDuplicates(xs) && NoDuplicates(ys)
    ensures Root(k, SortedOf(xs)) == Root(k, SortedOf(ys)) <==> Elements(xs) == Elements(ys)
  {
    SortedElements(xs);
    SortedElements(ys);
    SameRootIff(k, SortedOf(xs), SortedOf(ys));
    if Elements(xs) == Elements(ys) {
      CountedOnce(xs);
      CountedOnce(ys);
      RootIgnoresOrder(k, xs, ys);
    }
  }

  /** Building a set of n transactions writes fewer than 2n + ceil(log2 n) sets. */
  lemma BuildWrites(n: nat)
    requires n > 0
    ensures n + PairWrites(n) < 2 * n + CeilLog2(n)
  {
    PairWritesBound(n);
  }
}
