/** The network results: what stands behind a commit, and when commits agree. */
module Agreement {
  import opened Objects
  import opened Rounds
  import opened RoundHistory
  import opened RoundRecords
  import opened RoundTheorems
  import opened Quorums
  import opened Network
  import opened Vetting

  // --------------------------------------------------------------------------------------------
  // A correct proposer
  // --------------------------------------------------------------------------------------------

  /** The correct nodes whose validator has accepted the block by then. */
  ghost function Validators(t: Texts, run: seq<Net>, steps: seq<NetStep>, n: nat, block: Cid): set<Peer>
    requires n < |run|
  {
    set p | p in run[n] && AcceptedBy(t, run, steps, n, p, block)
  }

  /** A correct node that is recorded with a prevote for a defined block has validated it. */
  lemma VoterValidated(t: Texts, net: Net, p: Peer, v: Vote, block: Cid)
    requires SoundText(t) && NetInv(t, net) && p in net && Said(net, p, VoteMsg(v))
    requires v.kind == PreVote && v.block == t.str(block) && block != Undef
    ensures block in net[p].past.validated
  {
    assert NodeOk(t, net, p);
    var i :| 0 <= i < |net[p].past.log| && net[p].past.log[i].msg == VoteMsg(v);
    StrDenotes(t, block);
    assert VoteVetted(t, net[p].past, v);
  }

  lemma LockValidated(t: Texts, net: Net, leader: Peer, i: nat)
    requires SoundText(t) && NetInv(t, net) && leader in net && i < |net[leader].past.locks|
    requires net[leader].past.locks[i].block != Undef
    ensures var l := net[leader].past.locks[i];
            LockJustified(t, l) && forall p :: p in l.preVotes && p in net ==> l.block in net[p].past.validated
  {
    assert NodeOk(t, net, leader);
    var l := net[leader].past.locks[i];
    assert LockJustified(t, l) && AllSaid(net, l.preVotes);
    forall p | p in l.preVotes && p in net ensures l.block in net[p].past.validated {
      VoterValidated(t, net, p, l.preVotes[p], l.block);
    }
  }

  /** In every network run: a defined block that a correct node commits under a correct proposer
      was locked by that proposer in the same round number, on more than f prevotes of distinct
      nodes other than the lock's proposer; for every correct one of these voters there is an earlier
      step in which its own validator accepted the block, so for all but the faulty voters. */
  lemma CommitValidated(t: Texts, run: seq<Net>, steps: seq<NetStep>, n: nat, p: Peer, i: nat) returns (j: nat)
    requires SoundText(t) && IsRun(t, run, steps) && n <= |steps|
    requires p in run[n] && i < |run[n][p].past.commits| && run[n][p].past.commits[i].block != Undef
    requires run[n][p].past.commits[i].proposer in run[n]
    ensures var net, c := run[n], run[n][p].past.commits[i];
            && j < |net[c.proposer].past.locks|
            && var l := net[c.proposer].past.locks[j];
               && l.block == c.block && l.round == c.round && LockJustified(t, l)
               && (forall v :: v in l.preVotes && v in net ==> AcceptedBy(t, run, steps, n, v, c.block))
               && |Validators(t, run, steps, n, c.block)| > l.f - |l.preVotes.Keys - net.Keys|
  {
    NetInvRun(t, run, steps, n);
    var net := run[n];
    var c := net[p].past.commits[i];
    assert NodeOk(t, net, p);
    assert Traced(t, net[c.proposer], p, c);
    var g :| Traces(t, net[c.proposer], p, c, g);
    j :| 0 <= j < |net[c.proposer].past.locks| && net[c.proposer].past.locks[j].epoch == g &&
         net[c.proposer].past.locks[j].round == c.round && net[c.proposer].past.locks[j].block == c.block;
    LockValidated(t, net, c.proposer, j);
    var l := net[c.proposer].past.locks[j];
    forall v | v in l.preVotes && v in net ensures AcceptedBy(t, run, steps, n, v, c.block) {
      AcceptedIff(t, run, steps, n, v, c.block);
    }
    CountValidators(l.preVotes, net.Keys, Validators(t, run, steps, n, c.block));
  }

  lemma CountValidators(votes: map<Peer, Vote>, correct: set<Peer>, validators: set<Peer>)
    requires forall v :: v in votes && v in correct ==> v in validators
    ensures |validators| >= |votes| - |votes.Keys - correct|
  {
    SplitSize(votes.Keys, correct);
    SplitSize(validators, votes.Keys * correct);
    assert validators * (votes.Keys * correct) == votes.Keys * correct;
    assert |votes.Keys| == |votes|;
  }

  lemma SplitSize<T>(a: set<T>, b: set<T>)
    ensures |a| == |a * b| + |a - b|
  {
    assert a == (a * b) + (a - b);
  }

  /** Each commit of a defined block under a correct proposer goes back to one of that proposer's
      epochs: there it locked the block, and there it sent the block message for it, unless the commit
      is its own.  Two commits that go back to one epoch have the same block and round, whoever made
      them. */
  lemma CorrectProposerAgreement(t: Texts, run: seq<Net>, steps: seq<NetStep>, n: nat, p: Peer, i: nat, q: Peer, j: nat)
    returns (g: nat, h: nat)
    requires SoundText(t) && IsRun(t, run, steps) && n <= |steps|
    requires p in run[n] && i < |run[n][p].past.commits| && q in run[n] && j < |run[n][q].past.commits|
    requires var c, d := run[n][p].past.commits[i], run[n][q].past.commits[j];
             c.block != Undef && d.block != Undef && c.proposer == d.proposer && c.proposer in run[n]
    ensures var c, d := run[n][p].past.commits[i], run[n][q].past.commits[j];
            var leader := run[n][c.proposer];
            && Traces(t, leader, p, c, g) && Traces(t, leader, q, d, h)
            && (g == h ==> c.block == d.block && c.round == d.round)
  {
    NetInvRun(t, run, steps, n);
    var c, d := run[n][p].past.commits[i], run[n][q].past.commits[j];
    var leader := run[n][c.proposer];
    assert NodeOk(t, run[n], p) && NodeOk(t, run[n], q) && NodeOk(t, run[n], c.proposer);
    assert Traced(t, leader, p, c) && Traced(t, leader, q, d);
    g :| Traces(t, leader, p, c, g);
    h :| Traces(t, leader, q, d, h);
    if g == h {
      SameEpochSame(t, leader, p, c, q, d, g);
    }
  }

  lemma SameEpochSame(t: Texts, leader: State, p: Peer, c: Commit, q: Peer, d: Commit, g: nat)
    requires LockInv(t, leader) && Traces(t, leader, p, c, g) && Traces(t, leader, q, d, g)
    ensures c.block == d.block && c.round == d.round
  {
    assert LockedIn(leader.past.locks, g, c.round, c.block) && LockedIn(leader.past.locks, g, d.round, d.block);
  }

  // --------------------------------------------------------------------------------------------
  // Any proposer
  // --------------------------------------------------------------------------------------------

  /** A correct node that was in this height and round in one epoch only. */
  ghost predicate VotesOnce(s: State, height: nat, round: nat) {
    var log := s.past.log;
    forall i, j :: 0 <= i < |log| && 0 <= j < |log| &&
                   InRound(log[i].msg, height, round) && InRound(log[j].msg, height, round) ==>
      log[i].epoch == log[j].epoch
  }

  predicate InRound(m: Msg, height: nat, round: nat) {
    m.VoteMsg? && m.vote.height == height && m.vote.round == round
  }

  /** The voters that might have voted twice: faulty ones, and correct ones that were put back
      into the same height and round. */
  ghost function DoubleVoters(net: Net, voters: set<Peer>, height: nat, round: nat): set<Peer> {
    set p | p in voters && (p in net ==> !VotesOnce(net[p], height, round))
  }

  lemma SameVote(t: Texts, net: Net, p: Peer, v: Vote, w: Vote)
    requires SoundText(t) && NetInv(t, net) && p in net && VotesOnce(net[p], v.height, v.round)
    requires Said(net, p, VoteMsg(v)) && Said(net, p, VoteMsg(w))
    requires v.kind == w.kind && v.height == w.height && v.round == w.round
    ensures v == w
  {
    assert NodeOk(t, net, p);
    var log := net[p].past.log;
    var i :| 0 <= i < |log| && log[i].msg == VoteMsg(v);
    var j :| 0 <= j < |log| && log[j].msg == VoteMsg(w);
    assert InRound(log[i].msg, v.height, v.round) && InRound(log[j].msg, v.height, v.round);
    LogFacts(t, net[p], i, j);
  }

  lemma SharedVoterAgrees(t: Texts, net: Net, p: Peer, c: Commit, d: Commit)
    requires SoundText(t) && NetInv(t, net) && CommitJustified(t, c) && CommitJustified(t, d)
    requires AllSaid(net, c.preVotes) && AllSaid(net, d.preVotes)
    requires c.height == d.height && c.round == d.round && p in c.preVotes && p in d.preVotes
    requires p in net && VotesOnce(net[p], c.height, c.round)
    ensures c.block == d.block
  {
    SameVote(t, net, p, c.preVotes[p], d.preVotes[p]);
  }

  /** Whoever the proposer is: two correct nodes that commit defined blocks at one height and
      round commit the same block, if the numbers of votes they demand, fc and fd, are such that
      fc + fd + 2 exceeds the number of voters by more than the number of double voters. */
  lemma QuorumAgreement(t: Texts, run: seq<Net>, steps: seq<NetStep>, n: nat, p: Peer, i: nat, q: Peer, j: nat,
      voters: set<Peer>)
    requires SoundText(t) && IsRun(t, run, steps) && n <= |steps|
    requires p in run[n] && i < |run[n][p].past.commits| && q in run[n] && j < |run[n][q].past.commits|
    requires var c, d := run[n][p].past.commits[i], run[n][q].past.commits[j];
             && c.block != Undef && d.block != Undef && c.height == d.height && c.round == d.round
             && c.preVotes.Keys <= voters && d.preVotes.Keys <= voters
             && c.f + d.f + 2 > |voters| + |DoubleVoters(run[n], voters, c.height, c.round)|
    ensures run[n][p].past.commits[i].block == run[n][q].past.commits[j].block
  {
    var net := run[n];
    var c, d := net[p].past.commits[i], net[q].past.commits[j];
    NetInvRun(t, run, steps, n);
    assert NodeOk(t, net, p) && NodeOk(t, net, q);
    assert CommitJustified(t, c) && CommitJustified(t, d);
    var shared := c.preVotes.Keys * d.preVotes.Keys;
    var double := DoubleVoters(net, voters, c.height, c.round);
    IntersectionSize(voters, c.preVotes.Keys, d.preVotes.Keys);
    assert |c.preVotes.Keys| == |c.preVotes| && |d.preVotes.Keys| == |d.preVotes|;
    var v := NotCovered(shared, double);
    SharedVoterAgrees(t, net, v, c, d);
  }

  lemma NotCovered<T>(a: set<T>, b: set<T>) returns (x: T)
    requires |a| > |b|
    ensures x in a && x !in b
  {
    assert b == (a * b) + (b - a);
    assert |b| == |a * b| + |b - a|;
    assert a <= b ==> a * b == a;
    x :| x in a && x !in b;
  }

  /** With the quorum that `startRound` computes on both sides, up to floor(m/3) + 1 of the m
      voters may vote twice. */
  lemma FullQuorumAgreement(t: Texts, run: seq<Net>, steps: seq<NetStep>, n: nat, p: Peer, i: nat, q: Peer, j: nat,
      voters: set<Peer>)
    requires SoundText(t) && IsRun(t, run, steps) && n <= |steps|
    requires p in run[n] && i < |run[n][p].past.commits| && q in run[n] && j < |run[n][q].past.commits|
    requires var c, d := run[n][p].past.commits[i], run[n][q].past.commits[j];
             && c.block != Undef && d.block != Undef && c.height == d.height && c.round == d.round
             && c.preVotes.Keys <= voters && d.preVotes.Keys <= voters
             && c.f == d.f == Quorum(|voters|)
             && |DoubleVoters(run[n], voters, c.height, c.round)| <= |voters| / 3 + 1
    ensures run[n][p].past.commits[i].block == run[n][q].past.commits[j].block
  {
    QuorumAgreement(t, run, steps, n, p, i, q, j, voters);
  }
}
