/** What one epoch can lock and commit, in every run. */
module RoundEpochs {
  import opened Rounds
  import opened RoundSafety
  import opened RoundRecords

  /** Two commits of the same thing; the tables may have grown in between. */
  ghost predicate SameCommit(c: Commit, d: Commit) {
    c.proposer == d.proposer && c.height == d.height && c.round == d.round && c.block == d.block
  }

  /** What is locked and committed in the current epoch is the current lock, and the tip shows it. */
  ghost predicate CurrentEpoch(s: State) {
    && (s.prop.step == Precommit || s.prop.step == Committing ==> s.prop.pcDone)
    && (forall i :: 0 <= i < |s.past.locks| && s.past.locks[i].epoch == s.past.epoch ==>
          s.past.locks[i].block == s.prop.lockedValue && s.past.locks[i].round == s.prop.lockedRound)
    && (forall i :: 0 <= i < |s.past.commits| ==> s.past.commits[i].epoch <= s.past.epoch)
    && (forall i :: 0 <= i < |s.past.commits| && s.past.commits[i].epoch == s.past.epoch ==>
          SameCommit(s.past.commits[i], CommitOf(s)) && s.prop.pcDone && Shows(s.tip, s.prop))
  }

  ghost predicate Shows(tip: Tip, r: Round) {
    tip.height == r.height && tip.block == r.lockedValue
  }

  /** All commits of an epoch are the same, and are of what was locked in it, if anything was. */
  ghost predicate PastEpochs(h: History) {
    && (forall i, j :: 0 <= i < |h.commits| && 0 <= j < |h.commits| && h.commits[i].epoch == h.commits[j].epoch ==>
          SameCommit(h.commits[i], h.commits[j]))
    && (forall i, j :: 0 <= i < |h.commits| && 0 <= j < |h.locks| && h.commits[i].epoch == h.locks[j].epoch ==>
          h.commits[i].block == h.locks[j].block && h.commits[i].round == h.locks[j].round)
    && (forall i :: 0 <= i < |h.commits| ==> |h.commits[i].preCommits| > h.commits[i].f)
  }

  ghost predicate EpochInv(s: State) {
    CurrentEpoch(s) && PastEpochs(s.past)
  }

  // --------------------------------------------------------------------------------------------
  // The four kinds of steps
  // --------------------------------------------------------------------------------------------

  ghost predicate Resets(s: State, r: State) {
    && r.past.epoch == s.past.epoch + 1 && r.past.locks == s.past.locks && r.past.commits == s.past.commits
    && (r.prop.step == Propose || r.prop.step == Prevote)
  }

  ghost predicate Stays(s: State, r: State) {
    && r.past.epoch == s.past.epoch && r.past.locks == s.past.locks && r.past.commits == s.past.commits
    && r.tip == s.tip && r.prop.height == s.prop.height
    && r.prop.lockedValue == s.prop.lockedValue && r.prop.lockedRound == s.prop.lockedRound
    && (s.prop.pcDone ==> r.prop.pcDone)
    && (r.prop.step == Precommit || r.prop.step == Committing ==> r.prop.pcDone)
  }

  ghost predicate TakesLock(s: State, r: State) {
    && !s.prop.pcDone && r.prop.pcDone && r.past.epoch == s.past.epoch && r.tip == s.tip
    && r.past.commits == s.past.commits && |r.past.locks| == |s.past.locks| + 1
    && r.past.locks[..|s.past.locks|] == s.past.locks
    && var l := r.past.locks[|s.past.locks|];
       l.epoch == s.past.epoch && l.block == r.prop.lockedValue && l.round == r.prop.lockedRound
  }

  ghost predicate Commits(s: State, r: State) {
    && s.prop.step == Committing && r.prop == s.prop && r.past.epoch == s.past.epoch && r.past.locks == s.past.locks
    && r.past.commits == s.past.commits + [CommitOf(s)]
    && r.tip.proposer == s.tip.proposer && Shows(r.tip, s.prop)
  }

  ghost predicate Moves(s: State, r: State) {
    Resets(s, r) || Stays(s, r) || TakesLock(s, r) || Commits(s, r)
  }

  lemma EpochInvMoves(t: Texts, s: State, r: State)
    requires RoundInv(t, s) && RecordInv(t, s) && EpochInv(s) && Moves(s, r)
    ensures EpochInv(r)
  {
    if TakesLock(s, r) {
      LockKeeps(t, s, r);
    } else if Commits(s, r) {
      CommitKeeps(t, s, r);
    }
  }

  lemma LockKeeps(t: Texts, s: State, r: State)
    requires LockInv(t, s) && EpochInv(s) && TakesLock(s, r)
    ensures EpochInv(r)
  {
    assert forall i :: 0 <= i < |s.past.locks| ==> r.past.locks[i] == s.past.locks[i];
    assert forall i :: 0 <= i < |s.past.commits| ==> s.past.commits[i].epoch < s.past.epoch;
  }

  lemma CommitKeeps(t: Texts, s: State, r: State)
    requires RoundInv(t, s) && EpochInv(s) && Commits(s, r)
    ensures EpochInv(r)
  {
    assert CommitOf(r).block == CommitOf(s).block && SameCommit(CommitOf(s), CommitOf(r));
  }

  // --------------------------------------------------------------------------------------------
  // Every step is of one of these kinds
  // --------------------------------------------------------------------------------------------

  lemma MovesReceive(t: Texts, s: State, from: Peer, msg: Msg, valid: bool, sent: bool)
    requires CurrentEpoch(s)
    ensures Moves(s, OnReceive(t, s, from, msg, valid, sent))
  {
    match msg
    case NewRound(_, _) =>
    case Proposal(_, _, x) => assert Stays(s, OnProposal(t, s, from, x, valid, sent));
    case VoteMsg(v) => MovesVote(t, s, from, v, sent);
    case BlockMsg(_, r, c) =>
      if BlockAccepted(t, s, from, r, c) {
        assert Commits(s, OnBlock(t, s, from, r, c));
      }
  }

  lemma MovesVote(t: Texts, s: State, from: Peer, v: Vote, sent: bool)
    requires CurrentEpoch(s)
    ensures Moves(s, OnVote(t, s, from, v, sent))
  {
    var r := OnVote(t, s, from, v, sent);
    if r != s {
      match v.kind
      case PreVote => MovesPreVote(t, s, from, v, sent);
      case PreCommit => MovesPreCommit(s, from, v);
      case ProposalVote =>
    }
  }

  lemma MovesPreVote(t: Texts, s: State, from: Peer, v: Vote, sent: bool)
    requires CurrentEpoch(s)
    ensures Moves(s, OnPreVote(t, s, from, v, sent))
  {
    var r := OnPreVote(t, s, from, v, sent);
    if s.prop.step == Prevote && Locks(s.prop, from, v) {
      assert r.prop == Locked(WithPreVote(s.prop, from, v));
      assert TakesLock(s, r);
    } else {
      assert Stays(s, r);
    }
  }

  lemma MovesPreCommit(s: State, from: Peer, v: Vote)
    requires CurrentEpoch(s)
    ensures Stays(s, OnPreCommit(s, from, v))
  {
    if s.prop.step == Precommit && Completes(s.prop, from, v) {
      assert OnPreCommit(s, from, v).prop == WithPreCommit(s.prop, from, v).(step := Committing, sbDone := true);
    }
  }

  lemma MovesNext(t: Texts, s: State, e: Event)
    requires CurrentEpoch(s)
    ensures Moves(s, Next(t, s, e))
  {
    if Enabled(s, e) {
      match e
      case Tick(p, env) => StartFrame(t, s.(tip := s.tip.(proposer := p)), false, env);
      case Receive(from, msg, valid, sent) => MovesReceive(t, s, from, msg, valid, sent);
      case ProposeTimeout(sent) => assert Stays(s, OnProposeTimeout(s, sent));
      case PrevoteTimeout(sent) => assert Stays(s, OnPrevoteTimeout(s, sent));
      case PrecommitTimeout(env) => StartFrame(t, s.(timers := s.timers.(precommit := false)), true, env);
      case BlockTimeout =>
      case Broadcast(sent) => MovesBroadcast(t, s, sent);
    }
  }

  lemma MovesBroadcast(t: Texts, s: State, sent: bool)
    requires CurrentEpoch(s) && s.timers.pending > 0
    ensures Moves(s, OnBroadcast(t, s, sent))
  {
    var r := OnBroadcast(t, s, sent);
    if r.past.commits != s.past.commits {
      assert Commits(s, r);
    } else {
      assert Stays(s, r);
    }
  }

  lemma EpochInvNext(t: Texts, s: State, e: Event)
    requires RoundInv(t, s) && RecordInv(t, s) && EpochInv(s)
    ensures EpochInv(Next(t, s, e))
  {
    MovesNext(t, s, e);
    EpochInvMoves(t, s, Next(t, s, e));
  }
}
