/** The Merkle transaction set of a block: the bottom-up builder (`NewTxSet`), the breadth-first
    reader (`AllTx`) and what connects the two.

    `Tree` is the reference: the abstract tree that the builder's repeated pairing computes.
    `CidOf` gives a tree its address, `Holds` says that a store has all of a tree's sets.
 */
module TxSets {
  import opened Bytes
  import opened Objects

  datatype Tree = Leaf(tx: Cid) | Node(left: Tree, right: Tree)

  // --------------------------------------------------------------------------------------------
  // Trees and their addresses
  // --------------------------------------------------------------------------------------------

  /** The set that stands for the root of `t`. */
  function SetOf(k: Codec, t: Tree): TxSet
    decreases t, 0
  {
    match t
    case Leaf(tx) => TxSet([], Some(tx))
    case Node(l, r) => TxSet([CidOf(k, l), CidOf(k, r)], None)
  }

  function CidOf(k: Codec, t: Tree): Cid
    decreases t, 1
  {
    k.hash(k.encodeSet(SetOf(k, t)))
  }

  function TreeTxs(t: Tree): set<Cid> {
    match t
    case Leaf(tx) => {tx}
    case Node(l, r) => TreeTxs(l) + TreeTxs(r)
  }

  /** The leaves from left to right. */
  function Flatten(t: Tree): seq<Cid> {
    match t
    case Leaf(tx) => [tx]
    case Node(l, r) => Flatten(l) + Flatten(r)
  }

  /** Every leaf is exactly `d` edges below the root. */
  predicate Perfect(t: Tree, d: nat) {
    match t
    case Leaf(_) => d == 0
    case Node(l, r) => d > 0 && Perfect(l, d - 1) && Perfect(r, d - 1)
  }

  /** An address binds the whole tree below it. */
  lemma {:induction false} CidOfInjective(k: Codec, t: Tree, u: Tree)
    requires Sound(k) && CidOf(k, t) == CidOf(k, u)
    ensures t == u
  {
    var a, b := SetOf(k, t), SetOf(k, u);
    assert k.encodeSet(a) == k.encodeSet(b);
    assert Some(a) == k.decodeSet(k.encodeSet(a)) == k.decodeSet(k.encodeSet(b)) == Some(b);
    if t.Node? {
      assert a.children[0] == b.children[0] && a.children[1] == b.children[1];
      CidOfInjective(k, t.left, u.left);
      CidOfInjective(k, t.right, u.right);
    }
  }

  // --------------------------------------------------------------------------------------------
  // The reduction
  // --------------------------------------------------------------------------------------------

  /** An odd level is completed by repeating its last node. */
  function Pad<T>(s: seq<T>): (r: seq<T>)
    ensures |r| == 2 * ((|s| + 1) / 2)
  {
    if |s| % 2 == 1 then s + [s[|s| - 1]] else s
  }

  function PairUp(s: seq<Tree>): (r: seq<Tree>)
    requires |s| % 2 == 0
  {
    seq(|s| / 2, i requires 0 <= i < |s| / 2 => Node(s[2 * i], s[2 * i + 1]))
  }

  function Reduce(level: seq<Tree>): Tree
    requires |level| > 0
    decreases |level|
  {
    if |level| == 1 then level[0] else Reduce(PairUp(Pad(level)))
  }

  function Leaves(txs: seq<Cid>): seq<Tree> {
    seq(|txs|, i requires 0 <= i < |txs| => Leaf(txs[i]))
  }

  function BuildTree(txs: seq<Cid>): Tree
    requires |txs| > 0
  {
    Reduce(Leaves(txs))
  }

  /** The least d with n <= 2^d, as `CeilLog2Exact` shows. */
  function CeilLog2(n: nat): nat
    requires n > 0
  {
    if n == 1 then 0 else 1 + CeilLog2((n + 1) / 2)
  }

  function Pow2(d: nat): nat {
    if d == 0 then 1 else 2 * Pow2(d - 1)
  }

  lemma {:induction false} CeilLog2Exact(n: nat)
    requires n > 0
    ensures n <= Pow2(CeilLog2(n))
    ensures n > 1 ==> Pow2(CeilLog2(n) - 1) < n
  {
    if n > 2 {
      CeilLog2Exact((n + 1) / 2);
    }
  }

  ghost predicate AllPerfect(level: seq<Tree>, d: nat) {
    forall i :: 0 <= i < |level| ==> Perfect(level[i], d)
  }

  ghost function LevelTxs(level: seq<Tree>): set<Cid> {
    set i, c | 0 <= i < |level| && c in TreeTxs(level[i]) :: c
  }

  lemma PairUpTxs(level: seq<Tree>)
    ensures LevelTxs(PairUp(Pad(level))) == LevelTxs(level)
  {
    var padded := Pad(level);
    var pairs := PairUp(padded);
    forall c | c in LevelTxs(level)
      ensures c in LevelTxs(pairs)
    {
      var i :| 0 <= i < |level| && c in TreeTxs(level[i]);
      assert padded[i] == level[i];
      assert c in TreeTxs(pairs[i / 2]) by {
        assert pairs[i / 2] == Node(padded[2 * (i / 2)], padded[2 * (i / 2) + 1]);
        assert i == 2 * (i / 2) || i == 2 * (i / 2) + 1;
      }
    }
    forall c | c in LevelTxs(pairs)
      ensures c in LevelTxs(level)
    {
      var j :| 0 <= j < |pairs| && c in TreeTxs(pairs[j]);
      var i := if c in TreeTxs(padded[2 * j]) then 2 * j else 2 * j + 1;
      assert c in TreeTxs(padded[i]);
      assert padded[i] == level[if i < |level| then i else |level| - 1];
    }
  }

  lemma PairUpPerfect(level: seq<Tree>, d: nat)
    requires AllPerfect(level, d)
    ensures AllPerfect(PairUp(Pad(level)), d + 1)
  {
    assert AllPerfect(Pad(level), d);
  }

  /** The reduction adds one level per halving. */
  lemma {:induction false} ReducePerfect(level: seq<Tree>, d: nat)
    requires |level| > 0 && AllPerfect(level, d)
    ensures Perfect(Reduce(level), d + CeilLog2(|level|))
    decreases |level|
  {
    if |level| > 1 {
      PairUpPerfect(level, d);
      ReducePerfect(PairUp(Pad(level)), d + 1);
    }
  }

  /** The reduction keeps the transactions. */
  lemma {:induction false} ReduceTxs(level: seq<Tree>)
    requires |level| > 0
    ensures TreeTxs(Reduce(level)) == LevelTxs(level)
    decreases |level|
  {
    if |level| > 1 {
      PairUpTxs(level);
      ReduceTxs(PairUp(Pad(level)));
    }
  }

  /** The tree of a list has exactly the list's transactions, all at depth ceil(log2 n). */
  lemma BuildTreeShape(txs: seq<Cid>)
    requires |txs| > 0
    ensures Perfect(BuildTree(txs), CeilLog2(|txs|))
    ensures TreeTxs(BuildTree(txs)) == Elements(txs)
  {
    ReducePerfect(Leaves(txs), 0);
    ReduceTxs(Leaves(txs));
    assert LevelTxs(Leaves(txs)) == Elements(txs) by {
      forall c | c in txs ensures c in LevelTxs(Leaves(txs)) {
        var i :| 0 <= i < |txs| && txs[i] == c;
        assert c in TreeTxs(Leaves(txs)[i]);
      }
    }
  }

  // --------------------------------------------------------------------------------------------
  // Which lists share a root
  // --------------------------------------------------------------------------------------------

  /** The list that a root really stands for: while the list is more than one block of `w`
      transactions, an odd number `n` of blocks is completed by repeating the last block. */
  function Complete(s: seq<Cid>, n: nat, w: nat): (r: seq<Cid>)
    decreases n
  {
    if n <= 1 then s
    else Complete(if n % 2 == 1 && |s| >= w then s + s[|s| - w..] else s, (n + 1) / 2, 2 * w)
  }

  function FlattenLevel(level: seq<Tree>): seq<Cid> {
    if level == [] then [] else Flatten(level[0]) + FlattenLevel(level[1..])
  }

  lemma {:induction false} FlattenLevelAppend(a: seq<Tree>, b: seq<Tree>)
    ensures FlattenLevel(a + b) == FlattenLevel(a) + FlattenLevel(b)
  {
    if a == [] {
      assert a + b == b;
    } else {
      assert (a + b)[1..] == a[1..] + b;
      FlattenLevelAppend(a[1..], b);
    }
  }

  lemma {:induction false} FlattenPairs(level: seq<Tree>)
    requires |level| % 2 == 0
    ensures FlattenLevel(PairUp(level)) == FlattenLevel(level)
  {
    if level == [] {
      assert PairUp(level) == [];
    } else {
      FlattenPairs(level[2..]);
      assert PairUp(level) == [Node(level[0], level[1])] + PairUp(level[2..]);
      assert level[1..][1..] == level[2..];
      assert FlattenLevel(level) == Flatten(level[0]) + (Flatten(level[1]) + FlattenLevel(level[2..]));
    }
  }

  lemma {:induction false} PerfectSize(t: Tree, d: nat)
    requires Perfect(t, d)
    ensures |Flatten(t)| == Pow2(d)
  {
    if t.Node? {
      PerfectSize(t.left, d - 1);
      PerfectSize(t.right, d - 1);
    }
  }

  lemma {:induction false} Pow2Positive(d: nat)
    ensures Pow2(d) > 0
  {
    if d > 0 { Pow2Positive(d - 1); }
  }

  /** One round of pairing, seen on the flat list. */
  lemma FlattenPad(level: seq<Tree>, d: nat)
    requires |level| > 1 && AllPerfect(level, d)
    ensures |FlattenLevel(level)| >= Pow2(d)
    ensures FlattenLevel(PairUp(Pad(level))) ==
            (var s := FlattenLevel(level);
             if |level| % 2 == 1 then s + s[|s| - Pow2(d)..] else s)
  {
    var n := |level| - 1;
    var last := [level[n]];
    FlattenPairs(Pad(level));
    assert FlattenLevel(last) == Flatten(level[n]) by { assert last[1..] == []; }
    PerfectSize(level[n], d);
    FlattenLevelAppend(level, last);
    FlattenLevelAppend(level[..n], last);
    assert level == level[..n] + last;
  }

  /** One round of the reduction: half as many trees, one level deeper, with the same result. */
  lemma OneRound(level: seq<Tree>, d: nat, s: seq<Cid>) returns (up: seq<Tree>, s': seq<Cid>)
    requires |level| > 1 && AllPerfect(level, d) && s == FlattenLevel(level)
    ensures |up| == (|level| + 1) / 2 && AllPerfect(up, d + 1) && s' == FlattenLevel(up)
    ensures |s| >= Pow2(d) && s' == if |level| % 2 == 1 then s + s[|s| - Pow2(d)..] else s
    ensures Reduce(level) == Reduce(up)
  {
    up := PairUp(Pad(level));
    s' := FlattenLevel(up);
    FlattenPad(level, d);
    PairUpPerfect(level, d);
  }

  lemma {:induction false} ReduceFlat(level: seq<Tree>, d: nat, s: seq<Cid>)
    requires |level| > 0 && AllPerfect(level, d) && s == FlattenLevel(level)
    ensures Flatten(Reduce(level)) == Complete(s, |level|, Pow2(d))
    decreases |level|
  {
    if |level| == 1 {
      assert level[1..] == [];
    } else {
      var up, s' := OneRound(level, d, s);
      ReduceFlat(up, d + 1, s');
      CompleteOnce(s, |level|, Pow2(d), s');
    }
  }

  lemma CompleteOnce(s: seq<Cid>, n: nat, w: nat, s': seq<Cid>)
    requires n > 1 && |s| >= w && s' == if n % 2 == 1 then s + s[|s| - w..] else s
    ensures Complete(s, n, w) == Complete(s', (n + 1) / 2, 2 * w)
  {
  }

  lemma {:induction false} PerfectDetermined(t: Tree, d: nat, u: Tree, e: nat)
    requires Perfect(t, d) && Perfect(u, e) && Flatten(t) == Flatten(u)
    ensures t == u
  {
    PerfectSize(t, d);
    PerfectSize(u, e);
    if t.Node? && u.Node? {
      Pow2Injective(d, e);
      PerfectSize(t.left, d - 1);
      PerfectSize(u.left, e - 1);
      var h := |Flatten(t.left)|;
      assert Flatten(t.left) == Flatten(t)[..h] == Flatten(u)[..h] == Flatten(u.left);
      assert Flatten(t.right) == Flatten(t)[h..] == Flatten(u)[h..] == Flatten(u.right);
      PerfectDetermined(t.left, d - 1, u.left, e - 1);
      PerfectDetermined(t.right, d - 1, u.right, e - 1);
    } else {
      Pow2Injective(d, e);
    }
  }

  lemma {:induction false} Pow2Injective(d: nat, e: nat)
    requires Pow2(d) == Pow2(e)
    ensures d == e
  {
    if d > 0 {
      Pow2Positive(d - 1);
    }
    if d > 0 && e > 0 {
      Pow2Injective(d - 1, e - 1);
    }
  }

  /** The root of the list that `NewTxSet` has sorted. */
  function Root(k: Codec, txs: seq<Cid>): Cid
    requires |txs| > 0
  {
    CidOf(k, BuildTree(txs))
  }

  lemma BuildTreeFlat(txs: seq<Cid>)
    requires |txs| > 0
    ensures Flatten(BuildTree(txs)) == Complete(txs, |txs|, 1)
  {
    FlattenLeaves(txs);
    ReduceFlat(Leaves(txs), 0, txs);
  }

  lemma {:induction false} FlattenLeaves(txs: seq<Cid>)
    ensures FlattenLevel(Leaves(txs)) == txs
  {
    if txs != [] {
      assert Leaves(txs)[1..] == Leaves(txs[1..]);
      FlattenLeaves(txs[1..]);
    }
  }

  /** Under an injective hash two lists have the same root exactly when they agree once odd
      levels are completed; in particular they then have the same transactions. */
  lemma SameRootIff(k: Codec, xs: seq<Cid>, ys: seq<Cid>)
    requires Sound(k) && |xs| > 0 && |ys| > 0
    ensures Root(k, xs) == Root(k, ys) <==> Complete(xs, |xs|, 1) == Complete(ys, |ys|, 1)
    ensures Root(k, xs) == Root(k, ys) ==> Elements(xs) == Elements(ys)
  {
    BuildTreeFlat(xs);
    BuildTreeFlat(ys);
    BuildTreeShape(xs);
    BuildTreeShape(ys);
    if Root(k, xs) == Root(k, ys) {
      CidOfInjective(k, BuildTree(xs), BuildTree(ys));
    }
    if Complete(xs, |xs|, 1) == Complete(ys, |ys|, 1) {
      PerfectDetermined(BuildTree(xs), CeilLog2(|xs|), BuildTree(ys), CeilLog2(|ys|));
    }
  }

  /** The root does not bind the multiset: three transactions and the same three with the last
      one repeated share a root, whatever the hash. */
  lemma OddLevelCollision(k: Codec, a: Cid, b: Cid, c: Cid)
    ensures Root(k, [a, b, c]) == Root(k, [a, b, c, c])
    ensures multiset([a, b, c]) != multiset([a, b, c, c])
  {
    var three, four := Leaves([a, b, c]), Leaves([a, b, c, c]);
    assert Pad(three) == four == Pad(four);
    assert |multiset([a, b, c])| == 3 && |multiset([a, b, c, c])| == 4;
  }

  // --------------------------------------------------------------------------------------------
  // Reading: what is reachable from a root in an arbitrary store, cycles and sharing included
  // --------------------------------------------------------------------------------------------

  ghost predicate IsPath(k: Codec, objs: Objects, p: seq<Cid>) {
    && |p| > 0
    && forall i :: 0 <= i < |p| - 1 ==> HasChild(k, objs, p[i], p[i + 1])
  }

  ghost predicate HasChild(k: Codec, objs: Objects, c: Cid, d: Cid) {
    GetSet(k, objs, c).Some? && d in GetSet(k, objs, c).value.children
  }

  ghost predicate Reachable(k: Codec, objs: Objects, root: Cid, c: Cid) {
    exists p :: IsPath(k, objs, p) && p[0] == root && p[|p| - 1] == c
  }

  /** The set is stored, and so is the transaction it names, if any. */
  predicate Resolved(k: Codec, objs: Objects, c: Cid) {
    && GetSet(k, objs, c).Some?
    && (GetSet(k, objs, c).value.tx.Some? ==> GetTx(k, objs, GetSet(k, objs, c).value.tx.value).Some?)
  }

  ghost function TxsOf(k: Codec, objs: Objects, sets: set<Cid>): set<Cid> {
    set c | c in sets && GetSet(k, objs, c).Some? && GetSet(k, objs, c).value.tx.Some?
      :: GetSet(k, objs, c).value.tx.value
  }

  ghost function ReachableSets(k: Codec, objs: Objects, root: Cid): set<Cid> {
    set c | c in objs.Keys && Reachable(k, objs, root, c)
  }

  ghost predicate Readable(k: Codec, objs: Objects, root: Cid) {
    && (forall c :: Reachable(k, objs, root, c) ==> Resolved(k, objs, c))
    && |TxsOf(k, objs, ReachableSets(k, objs, root))| <= MaxBlockTxCount
  }

  ghost function TxMap(k: Codec, objs: Objects, txs: set<Cid>): map<Cid, Tx> {
    map t | t in txs && GetTx(k, objs, t).Some? :: GetTx(k, objs, t).value
  }

  /** The reference for `AllTx`: all or nothing, and exactly the reachable transactions. */
  ghost function ReadAll(k: Codec, objs: Objects, root: Cid): Option<map<Cid, Tx>> {
    if Readable(k, objs, root)
    then Some(TxMap(k, objs, TxsOf(k, objs, ReachableSets(k, objs, root))))
    else None
  }

  lemma ReachableRoot(k: Codec, objs: Objects, root: Cid)
    ensures Reachable(k, objs, root, root)
  {
    assert IsPath(k, objs, [root]);
  }

  lemma ReachableChild(k: Codec, objs: Objects, root: Cid, c: Cid, d: Cid)
    requires Reachable(k, objs, root, c) && HasChild(k, objs, c, d)
    ensures Reachable(k, objs, root, d)
  {
    var p :| IsPath(k, objs, p) && p[0] == root && p[|p| - 1] == c;
    assert IsPath(k, objs, p + [d]);
    assert (p + [d])[0] == root && (p + [d])[|p + [d]| - 1] == d;
  }

  ghost predicate Closed(k: Codec, objs: Objects, sets: set<Cid>) {
    forall c, d :: c in sets && HasChild(k, objs, c, d) ==> d in sets
  }

  /** A closed set that has the root has everything reachable from it. */
  lemma ClosedHasReachable(k: Codec, objs: Objects, root: Cid, sets: set<Cid>, c: Cid)
    requires root in sets && Closed(k, objs, sets) && Reachable(k, objs, root, c)
    ensures c in sets
  {
    var p :| IsPath(k, objs, p) && p[0] == root && p[|p| - 1] == c;
    PathStaysIn(k, objs, p, sets);
  }

  lemma {:induction false} PathStaysIn(k: Codec, objs: Objects, p: seq<Cid>, sets: set<Cid>)
    requires IsPath(k, objs, p) && p[0] in sets && Closed(k, objs, sets)
    ensures p[|p| - 1] in sets
  {
    if |p| > 1 {
      assert HasChild(k, objs, p[0], p[1]);
      assert IsPath(k, objs, p[1..]) by {
        forall i | 0 <= i < |p[1..]| - 1 ensures HasChild(k, objs, p[1..][i], p[1..][i + 1]) {
          assert HasChild(k, objs, p[i + 1], p[i + 2]);
        }
      }
      PathStaysIn(k, objs, p[1..], sets);
    }
  }

  /** A closed, resolved set of reachable sets that has the root settles the result. */
  lemma ReadAllDecided(k: Codec, objs: Objects, root: Cid, sets: set<Cid>)
    requires root in sets && Closed(k, objs, sets)
    requires forall c :: c in sets ==> Reachable(k, objs, root, c) && Resolved(k, objs, c)
    ensures ReachableSets(k, objs, root) == sets
    ensures ReadAll(k, objs, root) ==
            if |TxsOf(k, objs, sets)| <= MaxBlockTxCount then Some(TxMap(k, objs, TxsOf(k, objs, sets))) else None
  {
    forall c | Reachable(k, objs, root, c) ensures c in sets {
      ClosedHasReachable(k, objs, root, sets, c);
    }
    assert ReachableSets(k, objs, root) == sets;
  }

  /** What can be read stays the same when more is stored. */
  lemma ReadExtends(k: Codec, objs: Objects, more: Objects, root: Cid)
    requires Extends(objs, more) && ReadAll(k, objs, root).Some?
    ensures ReadAll(k, more, root) == ReadAll(k, objs, root)
  {
    var sets := ReachableSets(k, objs, root);
    ReachableRoot(k, objs, root);
    forall c | c in sets ensures Reachable(k, more, root, c) {
      PathExtends(k, objs, more, root, c);
    }
    forall c, d | c in sets && HasChild(k, more, c, d) ensures d in sets {
      ReachableChild(k, objs, root, c, d);
    }
    ReadAllDecided(k, more, root, sets);
    var txs := TxsOf(k, objs, sets);
    assert TxsOf(k, more, sets) == txs;
    forall t | t in txs ensures GetTx(k, objs, t).Some? {
      var c :| c in sets && GetSet(k, objs, c).Some? && GetSet(k, objs, c).value.tx == Some(t);
      assert Resolved(k, objs, c);
    }
    assert TxMap(k, more, txs) == TxMap(k, objs, txs);
  }

  lemma PathExtends(k: Codec, objs: Objects, more: Objects, root: Cid, c: Cid)
    requires Extends(objs, more) && Reachable(k, objs, root, c)
    ensures Reachable(k, more, root, c)
  {
    var p :| IsPath(k, objs, p) && p[0] == root && p[|p| - 1] == c;
    forall i | 0 <= i < |p| - 1 ensures HasChild(k, more, p[i], p[i + 1]) {
      assert HasChild(k, objs, p[i], p[i + 1]);
    }
  }

  // --------------------------------------------------------------------------------------------
  // Round trip
  // --------------------------------------------------------------------------------------------

  /** Every set of the tree is stored. */
  ghost predicate Holds(k: Codec, objs: Objects, t: Tree) {
    && GetSet(k, objs, CidOf(k, t)) == Some(SetOf(k, t))
    && (t.Node? ==> Holds(k, objs, t.left) && Holds(k, objs, t.right))
  }

  ghost function TreeCids(k: Codec, t: Tree): set<Cid> {
    {CidOf(k, t)} + if t.Node? then TreeCids(k, t.left) + TreeCids(k, t.right) else {}
  }

  lemma {:induction false} HoldsExtends(k: Codec, objs: Objects, more: Objects, t: Tree)
    requires Holds(k, objs, t) && Extends(objs, more)
    ensures Holds(k, more, t)
  {
    if t.Node? {
      HoldsExtends(k, objs, more, t.left);
      HoldsExtends(k, objs, more, t.right);
    }
  }

  lemma {:induction false} TreeClosed(k: Codec, objs: Objects, t: Tree)
    requires Holds(k, objs, t)
    ensures Closed(k, objs, TreeCids(k, t))
    ensures TxsOf(k, objs, TreeCids(k, t)) == TreeTxs(t)
    ensures forall c :: c in TreeCids(k, t) ==>
              && GetSet(k, objs, c).Some?
              && (GetSet(k, objs, c).value.tx.Some? ==> GetSet(k, objs, c).value.tx.value in TreeTxs(t))
  {
    if t.Node? {
      TreeClosed(k, objs, t.left);
      TreeClosed(k, objs, t.right);
      var l, r := TreeCids(k, t.left), TreeCids(k, t.right);
      assert TxsOf(k, objs, l + r) == TxsOf(k, objs, l) + TxsOf(k, objs, r);
      assert TxsOf(k, objs, TreeCids(k, t)) == TxsOf(k, objs, l + r);
    } else {
      assert TreeCids(k, t) == {CidOf(k, t)};
    }
  }

  lemma {:induction false} TreeReachable(k: Codec, objs: Objects, root: Cid, t: Tree, c: Cid)
    requires Holds(k, objs, t) && Reachable(k, objs, root, CidOf(k, t)) && c in TreeCids(k, t)
    ensures Reachable(k, objs, root, c)
  {
    if c != CidOf(k, t) {
      var l, r := CidOf(k, t.left), CidOf(k, t.right);
      ReachableChild(k, objs, root, CidOf(k, t), l);
      ReachableChild(k, objs, root, CidOf(k, t), r);
      if c in TreeCids(k, t.left) {
        TreeReachable(k, objs, root, t.left, c);
      } else {
        TreeReachable(k, objs, root, t.right, c);
      }
    }
  }

  /** Reading a stored tree gives back its transactions. */
  lemma ReadTree(k: Codec, objs: Objects, t: Tree)
    requires Holds(k, objs, t)
    requires forall c :: c in TreeTxs(t) ==> GetTx(k, objs, c).Some?
    ensures ReadAll(k, objs, CidOf(k, t)) ==
            if |TreeTxs(t)| <= MaxBlockTxCount then Some(TxMap(k, objs, TreeTxs(t))) else None
  {
    var root := CidOf(k, t);
    TreeClosed(k, objs, t);
    ReachableRoot(k, objs, root);
    forall c | c in TreeCids(k, t) ensures Reachable(k, objs, root, c) {
      TreeReachable(k, objs, root, t, c);
    }
    ReadAllDecided(k, objs, root, TreeCids(k, t));
  }

  /** The transactions below a stored set, children from left to right, `d` levels down. */
  function LeavesBelow(k: Codec, objs: Objects, c: Cid, d: nat): seq<Cid>
    decreases d, 1, 0
  {
    match GetSet(k, objs, c)
    case None => []
    case Some(s) =>
      if d == 0 then (if s.tx.Some? then [s.tx.value] else [])
      else LeavesOf(k, objs, s.children, d - 1)
  }

  function LeavesOf(k: Codec, objs: Objects, cs: seq<Cid>, d: nat): seq<Cid>
    decreases d, 2, |cs|
  {
    if cs == [] then [] else LeavesBelow(k, objs, cs[0], d) + LeavesOf(k, objs, cs[1..], d)
  }

  lemma LeavesOfTwo(k: Codec, objs: Objects, l: Cid, r: Cid, d: nat)
    ensures LeavesOf(k, objs, [l, r], d) == LeavesBelow(k, objs, l, d) + LeavesBelow(k, objs, r, d)
  {
    assert [l, r][1..] == [r] && [r][1..] == [];
    assert LeavesOf(k, objs, [r], d) == LeavesBelow(k, objs, r, d) + LeavesOf(k, objs, [], d);
  }

  lemma {:induction false} TreeLeaves(k: Codec, objs: Objects, t: Tree, d: nat)
    requires Holds(k, objs, t) && Perfect(t, d)
    ensures LeavesBelow(k, objs, CidOf(k, t), d) == Flatten(t)
  {
    if t.Node? {
      TreeLeaves(k, objs, t.left, d - 1);
      TreeLeaves(k, objs, t.right, d - 1);
      var l, r := CidOf(k, t.left), CidOf(k, t.right);
      LeavesOfTwo(k, objs, l, r, d - 1);
    }
  }

  /** Read left to right from the root, the stored sets give the list itself, odd levels completed. */
  lemma LeavesInOrder(k: Codec, objs: Objects, txs: seq<Cid>)
    requires |txs| > 0 && Holds(k, objs, BuildTree(txs))
    ensures LeavesBelow(k, objs, Root(k, txs), CeilLog2(|txs|)) == Complete(txs, |txs|, 1)
  {
    BuildTreeShape(txs);
    BuildTreeFlat(txs);
    TreeLeaves(k, objs, BuildTree(txs), CeilLog2(|txs|));
  }

  /** A root whose tree names a transaction that is not stored cannot be read. */
  lemma ReadMissing(k: Codec, objs: Objects, t: Tree, tx: Cid)
    requires Holds(k, objs, t) && tx in TreeTxs(t) && GetTx(k, objs, tx).None?
    ensures ReadAll(k, objs, CidOf(k, t)).None?
  {
    TreeClosed(k, objs, t);
    assert tx in TxsOf(k, objs, TreeCids(k, t));
    var c :| c in TreeCids(k, t) && GetSet(k, objs, c).Some? && GetSet(k, objs, c).value.tx == Some(tx);
    ReachableRoot(k, objs, CidOf(k, t));
    TreeReachable(k, objs, CidOf(k, t), t, c);
    assert !Resolved(k, objs, c);
  }

  /** The Merkle round trip: a built tree reads back exactly when every listed transaction is
      stored, and then gives exactly the listed transactions. */
  lemma RoundTrip(k: Codec, objs: Objects, txs: seq<Cid>)
    requires 0 < |txs| <= MaxBlockTxCount && Holds(k, objs, BuildTree(txs))
    ensures ReadAll(k, objs, Root(k, txs)).Some? <==> forall c :: c in txs ==> GetTx(k, objs, c).Some?
    ensures ReadAll(k, objs, Root(k, txs)).Some? ==>
              ReadAll(k, objs, Root(k, txs)).value == TxMap(k, objs, Elements(txs)) &&
              ReadAll(k, objs, Root(k, txs)).value.Keys == Elements(txs)
  {
    BuildTreeShape(txs);
    ElementsSize(txs);
    if tx :| tx in txs && GetTx(k, objs, tx).None? {
      ReadMissing(k, objs, BuildTree(txs), tx);
    } else {
      ReadTree(k, objs, BuildTree(txs));
    }
  }

  lemma {:induction false} ElementsSize<T>(s: seq<T>)
    ensures |Elements(s)| <= |s|
  {
    if s != [] {
      var n := |s| - 1;
      ElementsSize(s[..n]);
      assert s == s[..n] + [s[n]];
      assert Elements(s) == Elements(s[..n]) + {s[n]};
    }
  }

  // --------------------------------------------------------------------------------------------
  // Writes
  // --------------------------------------------------------------------------------------------

  /** The sets written to reduce a level of `n` nodes. */
  function PairWrites(n: nat): nat {
    if n <= 1 then 0 else (n + 1) / 2 + PairWrites((n + 1) / 2)
  }

  lemma {:induction false} PairWritesBound(n: nat)
    requires n > 0
    ensures PairWrites(n) < n + CeilLog2(n)
  {
    if n > 1 {
      PairWritesBound((n + 1) / 2);
    }
  }
}
