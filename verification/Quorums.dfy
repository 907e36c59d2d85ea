/** The size of a quorum and what two quorums have in common. */
module Quorums {
  import opened Bytes
  import opened Rounds

  /** The loop of `startRound` that takes the node itself out of the list: the hole is filled with
      the last node.  The loop goes over the list as it was, whose tail still holds that node. */
  method RemoveSelf(nodes: array<Peer>, self: Peer) returns (n: nat)
    requires NoDuplicates(nodes[..])
    modifies nodes
    ensures n <= nodes.Length && NoDuplicates(nodes[..n])
    ensures Elements(nodes[..n]) == Others(old(nodes[..]), self)
    ensures n == |Others(old(nodes[..]), self)|
  {
    ghost var was := nodes[..];
    n := nodes.Length;
    ghost var hole: nat := nodes.Length;
    for i := 0 to nodes.Length
      invariant n <= nodes.Length <= n + 1
      invariant n == nodes.Length ==>
                  nodes[..] == was && hole == nodes.Length && forall j :: 0 <= j < i ==> was[j] != self
      invariant n < nodes.Length ==> hole < i && was[hole] == self && nodes[..] == was[hole := was[nodes.Length - 1]]
    {
      if nodes[i] == self {
        nodes[i] := nodes[n - 1];
        n := n - 1;
        hole := i;
      }
    }
    Removed(was, nodes[..n], self, hole);
  }

  lemma Removed(was: seq<Peer>, now: seq<Peer>, self: Peer, hole: nat)
    requires NoDuplicates(was)
    requires if hole < |was| then was[hole] == self && now == was[hole := was[|was| - 1]][..|was| - 1]
             else now == was && forall j :: 0 <= j < |was| ==> was[j] != self
    ensures NoDuplicates(now) && Elements(now) == Others(was, self) && |now| == |Others(was, self)|
  {
    forall p | p in Others(was, self) ensures p in now {
      var j :| 0 <= j < |was| && was[j] == p;
      assert j == |was| - 1 && hole < |was| ==> now[hole] == p;
      assert j < |was| - 1 ==> now[j] == p;
    }
    forall p | p in now ensures p in Others(was, self) {
      var j :| 0 <= j < |now| && now[j] == p;
      assert p == was[if j == hole then |was| - 1 else j];
    }
    CountedOnce(now);
  }

  lemma IntersectionSize<T>(v: set<T>, a: set<T>, b: set<T>)
    requires a <= v && b <= v
    ensures |a * b| >= |a| + |b| - |v|
  {
    assert |a + b| == |a| + |b| - |a * b|;
    assert v == (a + b) + (v - (a + b));
    assert |v| == |a + b| + |v - (a + b)|;
  }

  lemma {:induction false} Subset<T>(v: set<T>, n: nat) returns (a: set<T>)
    requires n <= |v|
    ensures a <= v && |a| == n
  {
    if n == 0 {
      a := {};
    } else {
      var x :| x in v;
      var rest := Subset(v - {x}, n - 1);
      a := rest + {x};
    }
  }

  /** Any two sets of more than fa and more than fb voters out of v share more than d voters. */
  ghost predicate AlwaysShare<T(!new)>(v: set<T>, fa: nat, fb: nat, d: nat) {
    forall a: set<T>, b: set<T> :: a <= v && b <= v && |a| > fa && |b| > fb ==> |a * b| > d
  }

  /** Attainable quorums always share more than d voters exactly if fa + fb + 2 > |v| + d. */
  lemma SharedVotersIff<T(!new)>(v: set<T>, fa: nat, fb: nat, d: nat)
    requires fa < |v| && fb < |v|
    ensures AlwaysShare(v, fa, fb, d) <==> fa + fb + 2 > |v| + d
  {
    if fa + fb + 2 > |v| + d {
      forall a: set<T>, b: set<T> | a <= v && b <= v && |a| > fa && |b| > fb ensures |a * b| > d {
        IntersectionSize(v, a, b);
      }
    } else {
      var a, b := FarApart(v, fa, fb);
      assert |a * b| <= d;
    }
  }

  lemma FarApart<T>(v: set<T>, fa: nat, fb: nat) returns (a: set<T>, b: set<T>)
    requires fa < |v| && fb < |v|
    ensures a <= v && b <= v && |a| == fa + 1 && |b| == fb + 1
    ensures |a * b| == if fa + fb + 2 <= |v| then 0 else fa + fb + 2 - |v|
  {
    a := Subset(v, fa + 1);
    var rest := v - a;
    assert |rest| == |v| - |a|;
    if fb + 1 <= |rest| {
      b := Subset(rest, fb + 1);
      assert a * b == {};
    } else {
      var part := Subset(a, fb + 1 - |rest|);
      b := rest + part;
      assert a * b == part;
    }
  }

  /** Two quorums of m other nodes share at least floor(m/3) + 2 voters, so that many double
      voters less one cannot make both; and this many is the most that can be promised. */
  lemma QuorumsShare<T(!new)>(v: set<T>, d: nat)
    requires Quorum(|v|) < |v|
    ensures AlwaysShare(v, Quorum(|v|), Quorum(|v|), |v| / 3 + 1)
    ensures |v| % 3 == 2 ==> (AlwaysShare(v, Quorum(|v|), Quorum(|v|), d) <==> d <= |v| / 3 + 1)
  {
    SharedVotersIff(v, Quorum(|v|), Quorum(|v|), |v| / 3 + 1);
    SharedVotersIff(v, Quorum(|v|), Quorum(|v|), d);
  }

  /** A quorum can be reached at all exactly when there are not 0, 1 or 3 other nodes. */
  lemma QuorumAttainable<T(!new)>(v: set<T>)
    ensures (exists a: set<T> :: a <= v && |a| > Quorum(|v|)) <==> |v| !in {0, 1, 3}
  {
    if a: set<T> :| a <= v && |a| > Quorum(|v|) {
      assert v == a + (v - a);
      assert |v| == |a| + |v - a|;
    }
    if Quorum(|v|) < |v| {
      assert v <= v;
    }
  }
}
