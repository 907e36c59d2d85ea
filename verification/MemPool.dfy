/** The transaction pool: a binary heap on the timestamp, with the sift-up and sift-down loops of
    Go's `container/heap`, proved to be a priority queue over the multiset of its contents. */
module MemPools {
  import opened Bytes
  import opened Objects

  /** Go's `(i - 1) / 2`, which truncates: the parent of the root is the root. */
  function Parent(i: nat): nat {
    if i == 0 then 0 else (i - 1) / 2
  }

  ghost predicate Heap(s: seq<Tx>, n: nat)
    requires n <= |s|
  {
    forall i :: 0 < i < n ==> s[Parent(i)].ts <= s[i].ts
  }

  /** In order except that `j` may be smaller than its parent. */
  ghost predicate HeapAbove(s: seq<Tx>, j: nat) {
    && (forall i :: 0 < i < |s| && i != j ==> s[Parent(i)].ts <= s[i].ts)
    && (forall i :: 0 < i < |s| && Parent(i) == j && j > 0 ==> s[Parent(j)].ts <= s[i].ts)
  }

  /** In order except that `j` may be greater than its children. */
  ghost predicate HeapBelow(s: seq<Tx>, n: nat, j: nat)
    requires n <= |s|
  {
    && (forall i :: 0 < i < n && Parent(i) != j ==> s[Parent(i)].ts <= s[i].ts)
    && (forall i :: 0 < i < n && Parent(i) == j && 0 < j < n ==> s[Parent(j)].ts <= s[i].ts)
  }

  lemma {:induction false} RootIsOldest(s: seq<Tx>, i: nat)
    requires i < |s| && Heap(s, |s|)
    ensures s[0].ts <= s[i].ts
  {
    if i > 0 {
      RootIsOldest(s, Parent(i));
    }
  }

  function Swapped(s: seq<Tx>, i: nat, j: nat): (r: seq<Tx>)
    requires i < |s| && j < |s|
    ensures multiset(r) == multiset(s)
  {
    s[i := s[j]][j := s[i]]
  }

  lemma SwapUp(s: seq<Tx>, j: nat)
    requires 0 < j < |s| && HeapAbove(s, j) && s[j].ts < s[Parent(j)].ts
    ensures HeapAbove(Swapped(s, Parent(j), j), Parent(j))
  {
  }

  lemma SwapDown(s: seq<Tx>, n: nat, i: nat, j: nat)
    requires n <= |s| && 0 < j < n && Parent(j) == i && HeapBelow(s, n, i) && s[j].ts < s[i].ts
    requires forall c :: 0 < c < n && Parent(c) == i ==> s[j].ts <= s[c].ts
    ensures HeapBelow(Swapped(s, i, j), n, j)
  {
  }

  lemma HeapDone(s: seq<Tx>, n: nat, i: nat, j: nat)
    requires n <= |s| && HeapBelow(s, n, i) && i < n && j < n && s[i].ts <= s[j].ts
    requires forall c :: 0 < c < n && Parent(c) == i ==> s[j].ts <= s[c].ts
    ensures Heap(s, n)
  {
  }

  lemma HeapLeaf(s: seq<Tx>, n: nat, i: nat)
    requires n <= |s| && HeapBelow(s, n, i) && 2 * i + 1 >= n
    ensures Heap(s, n)
  {
  }

  /** The oldest transactions and the rest: the priority queue's view of taking several. */
  ghost predicate TakenOldest(before: multiset<Tx>, taken: seq<Tx>, after: multiset<Tx>) {
    && before == multiset(taken) + after
    && (forall i, j :: 0 <= i < j < |taken| ==> taken[i].ts <= taken[j].ts)
    && (forall i, t :: 0 <= i < |taken| && t in after ==> taken[i].ts <= t.ts)
  }

  lemma TakenOneMore(before: multiset<Tx>, taken: seq<Tx>, mid: multiset<Tx>, t: Tx, after: multiset<Tx>)
    requires TakenOldest(before, taken, mid) && mid == after + multiset{t} && forall u :: u in mid ==> t.ts <= u.ts
    ensures TakenOldest(before, taken + [t], after) && |multiset(taken + [t])| == |multiset(taken)| + 1
  {
    assert t in mid && forall u :: u in after ==> u in mid;
  }

  class TxMemPool {
    var plist: seq<Tx>

    ghost predicate Valid()
      reads this
    {
      Heap(plist, |plist|)
    }

    ghost function Contents(): multiset<Tx>
      reads this
    {
      multiset(plist)
    }

    constructor ()
      ensures Valid() && Contents() == multiset{}
    {
      plist := [];
    }

    method Less(i: nat, j: nat) returns (r: bool)
      requires i < |plist| && j < |plist|
      ensures r <==> plist[i].ts < plist[j].ts
    {
      r := plist[i].ts < plist[j].ts;
    }

    method Swap(i: nat, j: nat)
      requires i < |plist| && j < |plist|
      modifies this
      ensures plist == Swapped(old(plist), i, j)
    {
      plist := plist[i := plist[j]][j := plist[i]];
    }

    method Push(x: Tx)
      modifies this
      ensures plist == old(plist) + [x]
    {
      plist := plist + [x];
    }

    method Pop() returns (x: Tx)
      requires |plist| > 0
      modifies this
      ensures old(plist) == plist + [x]
    {
      var n := |plist|;
      x := plist[n - 1];
      plist := plist[..n - 1];
    }

    /** `up`: restores the heap after a push. */
    method Up(start: nat)
      requires start < |plist| && HeapAbove(plist, start)
      modifies this
      ensures Valid() && Contents() == old(Contents())
    {
      var j: nat := start;
      while true
        invariant j < |plist| && HeapAbove(plist, j) && Contents() == old(Contents())
        decreases j
      {
        var i := Parent(j);
        if i == j {
          break;
        }
        var less := Less(j, i);
        if !less {
          break;
        }
        SwapUp(plist, j);
        Swap(i, j);
        j := i;
      }
    }

    /** The child that `down` compares with: the older of the two. */
    method OlderChild(n: nat, i: nat) returns (j: nat)
      requires n <= |plist| && 2 * i + 1 < n
      ensures 0 < j < n && Parent(j) == i
      ensures forall c :: 0 < c < n && Parent(c) == i ==> plist[j].ts <= plist[c].ts
    {
      var j1 := 2 * i + 1;
      j := j1;
      if j1 + 1 < n {
        var right := Less(j1 + 1, j1);
        if right {
          j := j1 + 1;
        }
      }
      assert forall c :: 0 < c < n && Parent(c) == i ==> c == j1 || c == j1 + 1;
    }

    /** One step of `down`. */
    method Sink(n: nat, i: nat, j: nat)
      requires n <= |plist| && 0 < j < n && Parent(j) == i && HeapBelow(plist, n, i) && plist[j].ts < plist[i].ts
      requires forall c :: 0 < c < n && Parent(c) == i ==> plist[j].ts <= plist[c].ts
      modifies this
      ensures |plist| == old(|plist|) && HeapBelow(plist, n, j) && Contents() == old(Contents())
      ensures forall m :: n <= m < |plist| ==> plist[m] == old(plist[m])
    {
      SwapDown(plist, n, i, j);
      Swap(i, j);
    }

    /** `down`: restores the heap on the first `n` elements after the root was replaced. */
    method Down(n: nat)
      requires n <= |plist| && HeapBelow(plist, n, 0)
      modifies this
      ensures |plist| == old(|plist|) && Heap(plist, n) && Contents() == old(Contents())
      ensures forall m :: n <= m < |plist| ==> plist[m] == old(plist[m])
    {
      var i: nat := 0;
      while 2 * i + 1 < n
        invariant |plist| == old(|plist|)
        invariant forall m :: n <= m < |plist| ==> plist[m] == old(plist[m])
        invariant HeapBelow(plist, n, i) && Contents() == old(Contents())
        decreases n - i
      {
        var j := OlderChild(n, i);
        var less := Less(j, i);
        if !less {
          HeapDone(plist, n, i, j);
          return;
        }
        Sink(n, i, j);
        i := j;
      }
      HeapLeaf(plist, n, i);
    }

    /** `heap.Push`: exactly the new transaction is added. */
    method AddTx(t: Tx)
      requires Valid()
      modifies this
      ensures Valid() && Contents() == old(Contents()) + multiset{t}
    {
      Push(t);
      Up(|plist| - 1);
    }

    /** `heap.Pop`: exactly one transaction is removed, and none in the pool is older; an empty
        pool gives nothing. */
    method GetTx() returns (r: Option<Tx>)
      requires Valid()
      modifies this
      ensures Valid()
      ensures r.None? <==> old(Contents()) == multiset{}
      ensures r.None? ==> Contents() == multiset{}
      ensures r.Some? ==> old(Contents()) == Contents() + multiset{r.value}
      ensures r.Some? ==> forall t :: t in old(Contents()) ==> r.value.ts <= t.ts
    {
      if |plist| == 0 {
        return None;
      }
      var n := |plist| - 1;
      assert plist[n] in multiset(plist);
      forall t | t in multiset(plist) ensures plist[0].ts <= t.ts {
        var i :| 0 <= i < |plist| && plist[i] == t;
        RootIsOldest(plist, i);
      }
      ghost var oldest := plist[0];
      Swap(0, n);
      Down(n);
      assert plist[n] == oldest;
      var x := Pop();
      r := Some(x);
    }

    /** The loop of `makeBlock`: the n oldest transactions in timestamp order, none newer than
        any left behind; fewer only if the pool runs out. */
    method TakeOldest(n: nat) returns (txs: seq<Tx>)
      requires Valid()
      modifies this
      ensures Valid() && TakenOldest(old(Contents()), txs, Contents())
      ensures |txs| == if n <= |old(Contents())| then n else |old(Contents())|
    {
      txs := [];
      var left := n;
      while left > 0
        invariant Valid() && 0 <= left && left + |txs| == n && |multiset(txs)| == |txs|
        invariant TakenOldest(old(Contents()), txs, Contents())
      {
        ghost var mid := Contents();
        var t := GetTx();
        if t.None? {
          assert old(Contents()) == multiset(txs);
          return;
        }
        TakenOneMore(old(Contents()), txs, mid, t.value, Contents());
        txs := txs + [t.value];
        left := left - 1;
      }
      assert |old(Contents())| == |multiset(txs)| + |Contents()|;
    }
  }

  /** Draining a whole pool sorts it: all of it comes out, oldest first. */
  lemma DrainSorts(before: multiset<Tx>, taken: seq<Tx>, after: multiset<Tx>)
    requires TakenOldest(before, taken, after) && |taken| == |before|
    ensures multiset(taken) == before && after == multiset{}
  {
    assert |multiset(taken)| == |taken|;
    assert |before| == |multiset(taken)| + |after|;
  }
}
