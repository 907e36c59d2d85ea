/** The parent walk of `ApplyFromTip`: from a tip back to the last applied block, then inverted. */
module ChainWalk {
  import opened Bytes
  import opened Objects

  /** The persistent store's `GetBlock`, which fills in the block's id. */
  function Fetch(k: Codec, objs: Objects, id: Cid): Option<Block> {
    match GetBlock(k, objs, id)
    case None => None
    case Some(b) => Some(b.(id := id))
  }

  /** Every stored block is one higher than its stored parent. */
  ghost predicate HeightRule(k: Codec, objs: Objects) {
    forall c :: Fetch(k, objs, c).Some? ==>
      var b := Fetch(k, objs, c).value;
      Fetch(k, objs, b.parent).Some? ==> b.height == Fetch(k, objs, b.parent).value.height + 1
  }

  /** Stored blocks, each the parent of the next, from `first` to `tip`. */
  ghost predicate IsChain(k: Codec, objs: Objects, q: seq<Block>, first: Cid, tip: Cid) {
    && |q| > 0 && q[0].id == first && q[|q| - 1].id == tip
    && (forall i :: 0 <= i < |q| ==> Fetch(k, objs, q[i].id) == Some(q[i]))
    && (forall i :: 0 < i < |q| ==> q[i].parent == q[i - 1].id)
  }

  /** What the walk has queued, newest first, is the upper end of every chain there is. */
  ghost predicate Walked(k: Codec, objs: Objects, q: seq<Block>, tip: Cid) {
    && |q| > 0 && q[0].id == tip
    && (forall i :: 0 <= i < |q| ==> Fetch(k, objs, q[i].id) == Some(q[i]))
    && (forall i :: 0 <= i < |q| - 1 ==> q[i].parent == q[i + 1].id)
  }

  lemma {:induction false} WalkedHeights(k: Codec, objs: Objects, q: seq<Block>, tip: Cid, i: nat)
    requires HeightRule(k, objs) && Walked(k, objs, q, tip) && i < |q|
    ensures q[0].height == q[i].height + i
  {
    if i > 0 {
      WalkedHeights(k, objs, q, tip, i - 1);
      assert Fetch(k, objs, q[i - 1].id) == Some(q[i - 1]) && Fetch(k, objs, q[i].id) == Some(q[i]);
    }
  }

  lemma {:induction false} OnEveryChain(k: Codec, objs: Objects, q: seq<Block>, tip: Cid, first: Cid,
      chain: seq<Block>, i: nat)
    requires Walked(k, objs, q, tip) && IsChain(k, objs, chain, first, tip) && i < |q|
    requires forall j :: 0 <= j < i ==> q[j].id != first
    ensures i < |chain| && q[i] == chain[|chain| - 1 - i]
  {
    if i > 0 {
      OnEveryChain(k, objs, q, tip, first, chain, i - 1);
    }
  }

  lemma ChainGoesOn(k: Codec, objs: Objects, q: seq<Block>, tip: Cid, first: Cid, chain: seq<Block>)
    requires Walked(k, objs, q, tip) && (forall j :: 0 <= j < |q| ==> q[j].id != first)
    requires IsChain(k, objs, chain, first, tip)
    ensures Fetch(k, objs, q[|q| - 1].parent).Some?
  {
    OnEveryChain(k, objs, q, tip, first, chain, |q| - 1);
    var i := |chain| - |q|;
    assert chain[i] == q[|q| - 1] && chain[i].parent == chain[i - 1].id;
  }

  /** The walk cannot stop short of a chain that exists. */
  lemma NoChainMissed(k: Codec, objs: Objects, q: seq<Block>, tip: Cid, first: Cid, chain: seq<Block>)
    requires Walked(k, objs, q, tip) && (forall j :: 0 <= j < |q| ==> q[j].id != first)
    requires Fetch(k, objs, q[|q| - 1].parent).None?
    ensures !IsChain(k, objs, chain, first, tip)
  {
    if IsChain(k, objs, chain, first, tip) {
      ChainGoesOn(k, objs, q, tip, first, chain);
    }
  }

  /** Swapping from both ends, in place. */
  method Invert(a: array<Block>)
    modifies a
    ensures forall i :: 0 <= i < a.Length ==> a[i] == old(a[a.Length - 1 - i])
  {
    var i, j := 0, a.Length - 1;
    while i < j
      invariant 0 <= i && i + j == a.Length - 1
      invariant forall m :: 0 <= m < a.Length && (m < i || m > j) ==> a[m] == old(a[a.Length - 1 - m])
      invariant forall m :: i <= m <= j ==> a[m] == old(a[m])
    {
      a[i], a[j] := a[j], a[i];
      i, j := i + 1, j - 1;
    }
  }

  // --------------------------------------------------------------------------------------------
  // When the walk ends
  // --------------------------------------------------------------------------------------------

  ghost predicate Avoids(q: seq<Block>, first: Cid) {
    forall i :: 0 <= i < |q| ==> q[i].id != first
  }

  ghost predicate Distinct(q: seq<Block>) {
    forall i, j :: 0 <= i < j < |q| ==> q[i].id != q[j].id
  }

  /** The parents of the tip do not run in a circle before the last applied block is met. */
  ghost predicate NoCircle(k: Codec, objs: Objects, first: Cid, tip: Cid) {
    forall q :: Walked(k, objs, q, tip) && Avoids(q, first) ==> Distinct(q)
  }

  /** The walk can always go on without meeting the last applied block. */
  ghost predicate Endless(k: Codec, objs: Objects, first: Cid, tip: Cid) {
    forall n: nat :: LongWalk(k, objs, first, tip, n)
  }

  ghost predicate LongWalk(k: Codec, objs: Objects, first: Cid, tip: Cid, n: nat) {
    exists q :: Walked(k, objs, q, tip) && Avoids(q, first) && |q| > n
  }

  /** Heights that follow the rule leave no room for a circle. */
  lemma HeightRuleNoCircle(k: Codec, objs: Objects, first: Cid, tip: Cid)
    requires HeightRule(k, objs)
    ensures NoCircle(k, objs, first, tip)
  {
    forall q: seq<Block> | Walked(k, objs, q, tip) && Avoids(q, first) ensures Distinct(q) {
      forall i, j | 0 <= i < j < |q| ensures q[i].id != q[j].id {
        assert Fetch(k, objs, q[i].id) == Some(q[i]) && Fetch(k, objs, q[j].id) == Some(q[j]);
        WalkedHeights(k, objs, q, tip, i);
        WalkedHeights(k, objs, q, tip, j);
      }
    }
  }

  /** From a block on the circle the walk goes on to a block on the circle. */
  lemma RoundAgain(k: Codec, objs: Objects, q: seq<Block>, tip: Cid, first: Cid, i: nat, j: nat, w: seq<Block>, m: nat)
    returns (w': seq<Block>, m': nat)
    requires Walked(k, objs, q, tip) && Avoids(q, first) && i <= m < j < |q| && q[i].id == q[j].id
    requires Walked(k, objs, w, tip) && Avoids(w, first) && w[|w| - 1] == q[m]
    ensures Walked(k, objs, w', tip) && Avoids(w', first) && |w'| == |w| + 1
    ensures i <= m' < j && w'[|w'| - 1] == q[m']
  {
    w' := w + [q[m + 1]];
    m' := if m + 1 == j then i else m + 1;
    assert Fetch(k, objs, q[i].id) == Some(q[i]) && Fetch(k, objs, q[j].id) == Some(q[j]);
  }

  lemma {:induction false} RoundAndRound(k: Codec, objs: Objects, q: seq<Block>, tip: Cid, first: Cid, i: nat, j: nat,
      n: nat) returns (w: seq<Block>, m: nat)
    requires Walked(k, objs, q, tip) && Avoids(q, first) && i < j < |q| && q[i].id == q[j].id
    ensures Walked(k, objs, w, tip) && Avoids(w, first) && |w| > n && i <= m < j && w[|w| - 1] == q[m]
  {
    if n == 0 {
      w, m := q[..i + 1], i;
    } else {
      var w0, m0 := RoundAndRound(k, objs, q, tip, first, i, j, n - 1);
      w, m := RoundAgain(k, objs, q, tip, first, i, j, w0, m0);
    }
  }

  ghost function Ids(q: seq<Block>): set<Cid> {
    set i | 0 <= i < |q| :: q[i].id
  }

  lemma {:induction false} DistinctIds(q: seq<Block>)
    requires Distinct(q)
    ensures |Ids(q)| == |q|
  {
    if q != [] {
      var n := |q| - 1;
      DistinctIds(q[..n]);
      assert Ids(q) == Ids(q[..n]) + {q[n].id};
      assert q[n].id !in Ids(q[..n]);
    }
  }

  lemma IdsAppend(q: seq<Block>, b: Block)
    ensures Ids(q + [b]) == Ids(q) + {b.id}
  {
    var q' := q + [b];
    assert q'[|q|].id == b.id && forall i :: 0 <= i < |q| ==> q'[i].id == q[i].id;
    forall c ensures c in Ids(q') <==> c in Ids(q) + {b.id} {
      if c in Ids(q) {
        var i :| 0 <= i < |q| && q[i].id == c;
        assert q'[i].id == c;
      }
    }
  }

  lemma WalkedStored(k: Codec, objs: Objects, q: seq<Block>, tip: Cid)
    requires Walked(k, objs, q, tip)
    ensures Ids(q) <= objs.Keys
  {
    forall i | 0 <= i < |q| ensures q[i].id in objs {
      assert Fetch(k, objs, q[i].id) == Some(q[i]);
    }
  }

  /** The walk from a tip goes on forever exactly if its parents run in a circle that does not hold the
      last applied block. */
  lemma EndlessIff(k: Codec, objs: Objects, first: Cid, tip: Cid)
    ensures Endless(k, objs, first, tip) <==> !NoCircle(k, objs, first, tip)
  {
    if !NoCircle(k, objs, first, tip) {
      var q: seq<Block> :| Walked(k, objs, q, tip) && Avoids(q, first) && !Distinct(q);
      var i, j :| 0 <= i < j < |q| && q[i].id == q[j].id;
      forall n: nat ensures LongWalk(k, objs, first, tip, n) {
        var w, m := RoundAndRound(k, objs, q, tip, first, i, j, n);
      }
    } else {
      var n: nat := |objs|;
      if LongWalk(k, objs, first, tip, n) {
        var q: seq<Block> :| Walked(k, objs, q, tip) && Avoids(q, first) && |q| > n;
        DistinctIds(q);
        WalkedStored(k, objs, q, tip);
        SubsetSize(Ids(q), objs.Keys);
      }
      assert Endless(k, objs, first, tip) ==> LongWalk(k, objs, first, tip, n);
    }
  }

  /** One block more, which the walk has not met before. */
  lemma WalkOn(k: Codec, objs: Objects, first: Cid, tip: Cid, q: seq<Block>, b: Block)
    requires NoCircle(k, objs, first, tip) && Walked(k, objs, q, tip) && Avoids(q, first)
    requires Fetch(k, objs, q[|q| - 1].parent) == Some(b)
    ensures Walked(k, objs, q + [b], tip) && b.id in objs && b.id !in Ids(q) && Ids(q + [b]) == Ids(q) + {b.id}
  {
    var q' := q + [b];
    assert forall i :: 0 <= i < |q| ==> q'[i] == q[i];
    assert Walked(k, objs, q', tip);
    IdsAppend(q, b);
    if b.id != first {
      assert Avoids(q', first) && Distinct(q');
      assert forall i :: 0 <= i < |q| ==> q'[i].id != q'[|q|].id;
    }
  }

  /** The fetch loop: if the parents do not run in a circle it ends, at the last applied block, or where
      no chain goes on. */
  method WalkBack(k: Codec, objs: Objects, first: Cid, tip: Block) returns (r: Option<seq<Block>>)
    requires Sound(k) && Addressed(k, objs) && NoCircle(k, objs, first, tip.id) && Fetch(k, objs, tip.id) == Some(tip)
    ensures r.Some? ==> Walked(k, objs, r.value, tip.id) && r.value[|r.value| - 1].id == first
    ensures r.None? ==> forall chain :: !IsChain(k, objs, chain, first, tip.id)
  {
    var current := tip;
    var queue := [current];
    while current.id != first && current.id != Undef
      invariant Walked(k, objs, queue, tip.id) && queue[|queue| - 1] == current
      invariant Fetch(k, objs, current.id) == Some(current)
      invariant forall j :: 0 <= j < |queue| - 1 ==> queue[j].id != first
      decreases objs.Keys - Ids(queue)
    {
      var parent := Fetch(k, objs, current.parent);
      if parent.None? {
        forall chain ensures !IsChain(k, objs, chain, first, tip.id) {
          NoChainMissed(k, objs, queue, tip.id, first, chain);
        }
        return None;
      }
      WalkOn(k, objs, first, tip.id, queue, parent.value);
      current := parent.value;
      queue := queue + [current];
    }
    r := Some(queue);
  }

  lemma Inverted(k: Codec, objs: Objects, q: seq<Block>, tip: Cid, r: seq<Block>)
    requires Walked(k, objs, q, tip) && |r| == |q|
    requires forall i :: 0 <= i < |q| ==> r[i] == q[|q| - 1 - i]
    ensures IsChain(k, objs, r, q[|q| - 1].id, tip)
    ensures HeightRule(k, objs) ==> |r| == r[|r| - 1].height - r[0].height + 1
  {
    if HeightRule(k, objs) {
      WalkedHeights(k, objs, q, tip, |q| - 1);
    }
  }

  /** The walk succeeds exactly if some chain of stored blocks leads from the last applied block to
      the tip, and then gives such a chain, oldest first; the last applied block itself is on it,
      and where heights follow the rule its length is the difference in height plus one. */
  method BlocksToApply(k: Codec, objs: Objects, lastApplied: Block, tip: Cid) returns (r: Option<seq<Block>>)
    requires Sound(k) && Addressed(k, objs) && NoCircle(k, objs, lastApplied.id, tip)
    ensures r.Some? ==> IsChain(k, objs, r.value, lastApplied.id, tip)
    ensures r.Some? && HeightRule(k, objs) ==> |r.value| == r.value[|r.value| - 1].height - r.value[0].height + 1
    ensures r.None? ==> forall chain :: !IsChain(k, objs, chain, lastApplied.id, tip)
  {
    var fetched := Fetch(k, objs, tip);
    if fetched.None? {
      return None;
    }
    var walked := WalkBack(k, objs, lastApplied.id, fetched.value);
    if walked.None? {
      return None;
    }
    var queue := walked.value;
    var a := new Block[|queue|](i requires 0 <= i < |queue| => queue[i]);
    Invert(a);
    Inverted(k, objs, queue, tip, a[..]);
    r := Some(a[..]);
  }

  /** `NewBlock` gives a block the height that the rule asks for: 0 without a parent, else one more
      than the parent's, and it fails if the parent is not stored. */
  function NewHeight(k: Codec, objs: Objects, parent: Cid): Option<nat> {
    if parent == Undef then Some(0)
    else match GetBlock(k, objs, parent)
      case None => None
      case Some(p) => Some(p.height + 1)
  }

  /** A block keeps the rule exactly if its parent is not stored or is one below it. */
  lemma BlockKeepsRule(k: Codec, objs: Objects, b: Block)
    requires Sound(k) && Addressed(k, objs) && HeightRule(k, objs)
    requires b.parent != k.hash(k.encodeBlock(b))
    requires forall c :: Fetch(k, objs, c).Some? ==> Fetch(k, objs, c).value.parent != k.hash(k.encodeBlock(b))
    ensures HeightRule(k, objs[k.hash(k.encodeBlock(b)) := k.encodeBlock(b)]) <==>
            (Fetch(k, objs, b.parent).Some? ==> b.height == Fetch(k, objs, b.parent).value.height + 1)
  {
    var id := k.hash(k.encodeBlock(b));
    var more := objs[id := k.encodeBlock(b)];
    PutExtends(k, objs, k.encodeBlock(b));
    assert Fetch(k, more, id) == Some(b.(id := id)) && Fetch(k, more, b.parent) == Fetch(k, objs, b.parent);
    forall c | c != id && Fetch(k, more, c).Some? && Fetch(k, more, Fetch(k, more, c).value.parent).Some?
      ensures Fetch(k, more, c).value.height == Fetch(k, more, Fetch(k, more, c).value.parent).value.height + 1
    {
      assert Fetch(k, more, c) == Fetch(k, objs, c) && Fetch(k, objs, c).value.parent != id;
    }
  }

  /** Storing blocks made this way, one after the other, keeps the rule. */
  lemma NewBlockKeepsRule(k: Codec, objs: Objects, b: Block)
    requires Sound(k) && Addressed(k, objs) && HeightRule(k, objs)
    requires NewHeight(k, objs, b.parent) == Some(b.height)
    requires b.parent != k.hash(k.encodeBlock(b))
    requires forall c :: Fetch(k, objs, c).Some? ==> Fetch(k, objs, c).value.parent != k.hash(k.encodeBlock(b))
    ensures HeightRule(k, objs[k.hash(k.encodeBlock(b)) := k.encodeBlock(b)])
  {
    assert Undef !in objs;
    BlockKeepsRule(k, objs, b);
  }

  /** Along a chain of blocks made this way, from the first on, a block's height is its position. */
  lemma {:induction false} NewBlockHeights(k: Codec, objs: Objects, q: seq<Block>, i: nat)
    requires |q| > 0 && IsChain(k, objs, q, q[0].id, q[|q| - 1].id) && q[0].parent == Undef && i < |q|
    requires forall j :: 0 <= j < |q| ==> NewHeight(k, objs, q[j].parent) == Some(q[j].height)
    requires Undef !in objs
    ensures q[i].height == i
  {
    if i > 0 {
      NewBlockHeights(k, objs, q, i - 1);
      assert Fetch(k, objs, q[i - 1].id) == Some(q[i - 1]) && q[i].parent == q[i - 1].id;
      assert q[i - 1].id != Undef;
    }
  }

  /** `makeBlock` gives a block the height being proposed, which is the committed height plus one, and
      the committed block as its parent.  It keeps the rule exactly if the committed block is not
      stored or is stored with the committed height. */
  lemma MadeBlockKeepsRule(k: Codec, objs: Objects, b: Block, committed: nat)
    requires Sound(k) && Addressed(k, objs) && HeightRule(k, objs) && b.height == committed + 1
    requires b.parent != k.hash(k.encodeBlock(b))
    requires forall c :: Fetch(k, objs, c).Some? ==> Fetch(k, objs, c).value.parent != k.hash(k.encodeBlock(b))
    ensures HeightRule(k, objs[k.hash(k.encodeBlock(b)) := k.encodeBlock(b)]) <==>
            (Fetch(k, objs, b.parent).Some? ==> Fetch(k, objs, b.parent).value.height == committed)
  {
    BlockKeepsRule(k, objs, b);
  }
}
