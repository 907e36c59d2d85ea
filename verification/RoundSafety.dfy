/** What every run of one node keeps. */
module RoundSafety {
  import opened Objects
  import opened Rounds

  // --------------------------------------------------------------------------------------------
  // Votes, locks and steps
  // --------------------------------------------------------------------------------------------

  /** Votes of one kind for exactly this height, round and block, none of them the proposer's. */
  ghost predicate Matching(t: Texts, votes: map<Peer, Vote>, kind: VoteKind, proposer: Peer, height: nat,
      round: nat, block: Cid) {
    && proposer !in votes
    && forall p :: p in votes ==>
         votes[p].kind == kind && votes[p].height == height && votes[p].round == round && votes[p].block == t.str(block)
  }

  ghost predicate VotesMatch(t: Texts, proposer: Peer, r: Round) {
    && Matching(t, r.preVotes, PreVote, proposer, r.height, r.round, r.block)
    && Matching(t, r.preCommits, PreCommit, proposer, r.height, r.round, r.block)
  }

  ghost predicate StepsInOrder(r: Round) {
    && (r.step == Propose ==>
          r.preVotes == map[] && r.preCommits == map[] && !r.pcDone && !r.sbDone && r.lockedValue == Undef)
    && (r.lockedValue != Undef ==>
          r.lockedValue == r.block && r.lockedRound == r.round && |r.preVotes| > r.f && r.pcDone)
    && (r.sbDone <==> |r.preCommits| > r.f)
    && (r.step == Committing ==> r.sbDone)
  }

  ghost predicate RoundInv(t: Texts, s: State) {
    && VotesMatch(t, s.tip.proposer, s.prop) && StepsInOrder(s.prop)
    && (s.prop.step == Committing ==> !s.timers.precommit)
  }

  lemma AddedVote(votes: map<Peer, Vote>, p: Peer, v: Vote)
    ensures |votes[p := v]| >= |votes|
  {
    assert votes[p := v].Keys == votes.Keys + {p};
    assert |votes[p := v].Keys| == |votes[p := v]| && |votes.Keys| == |votes|;
  }

  /** What the proposer's branch leaves alone. */
  lemma LeadFrame(t: Texts, s: State, env: RoundEnv)
    ensures var r := Lead(t, s, env);
            && r.tip == s.tip && r.timers == s.timers && r.self == s.self && r.canSign == s.canSign
            && r.prop == s.prop.(f := r.prop.f, block := r.prop.block, step := r.prop.step)
            && (r.prop.step == s.prop.step || r.prop.step == Prevote)
            && r.past == s.past.(log := r.past.log, built := r.past.built)
  {
  }

  lemma StartFrame(t: Texts, s: State, inc: bool, env: RoundEnv)
    ensures var r := StartRound(t, s, inc, env);
            && r.tip == s.tip && r.self == s.self && r.canSign == s.canSign && r.past.epoch == s.past.epoch + 1
            && r.prop.preVotes == map[] && r.prop.preCommits == map[] && r.prop.lockedValue == Undef
            && !r.prop.pvDone && !r.prop.pcDone && !r.prop.sbDone && r.prop.step in {Propose, Prevote}
            && r.prop.height == (s.tip.height + 1) % TwoTo64
            && r.past == s.past.(epoch := r.past.epoch, log := r.past.log, built := r.past.built)
            && r.timers == s.timers.(propose := r.timers.propose, prevote := r.timers.prevote)
  {
    var o := Opened(s, inc);
    LeadFrame(t, s.(prop := o, timers := s.timers.(prevote := true), past := NextEpoch(s.past)), env);
  }

  lemma RoundInvStart(t: Texts, s: State, inc: bool, env: RoundEnv)
    ensures RoundInv(t, StartRound(t, s, inc, env))
  {
    StartFrame(t, s, inc, env);
  }

  lemma MatchingAdd(t: Texts, votes: map<Peer, Vote>, kind: VoteKind, proposer: Peer, height: nat, round: nat,
      block: Cid, from: Peer, v: Vote)
    requires Matching(t, votes, kind, proposer, height, round, block)
    requires from != proposer && v.kind == kind && v.height == height && v.round == round && v.block == t.str(block)
    ensures Matching(t, votes[from := v], kind, proposer, height, round, block)
    ensures |votes[from := v]| >= |votes|
  {
    AddedVote(votes, from, v);
  }

  ghost predicate Counts(t: Texts, s: State, from: Peer, v: Vote) {
    from != s.tip.proposer && v.height == s.prop.height && v.round == s.prop.round && v.block == t.str(s.prop.block)
  }

  lemma PropPreVote(t: Texts, s: State, from: Peer, v: Vote)
    requires RoundInv(t, s) && Counts(t, s, from, v) && v.kind == PreVote && s.prop.step == Prevote
    ensures var r := WithPreVote(s.prop, from, v);
            && VotesMatch(t, s.tip.proposer, r)
            && StepsInOrder(if Locks(s.prop, from, v) then Locked(r) else r)
  {
    MatchingAdd(t, s.prop.preVotes, PreVote, s.tip.proposer, s.prop.height, s.prop.round, s.prop.block, from, v);
  }

  lemma RoundInvPreVote(t: Texts, s: State, from: Peer, v: Vote, sent: bool)
    requires RoundInv(t, s) && Counts(t, s, from, v) && v.kind == PreVote
    ensures RoundInv(t, OnPreVote(t, s, from, v, sent))
  {
    if s.prop.step == Prevote {
      PropPreVote(t, s, from, v);
    }
  }

  lemma PropPreCommit(t: Texts, s: State, from: Peer, v: Vote)
    requires RoundInv(t, s) && Counts(t, s, from, v) && v.kind == PreCommit && s.prop.step == Precommit
    ensures var r := WithPreCommit(s.prop, from, v);
            && VotesMatch(t, s.tip.proposer, r)
            && StepsInOrder(if Completes(s.prop, from, v) then r.(step := Committing, sbDone := true) else r)
  {
    MatchingAdd(t, s.prop.preCommits, PreCommit, s.tip.proposer, s.prop.height, s.prop.round, s.prop.block, from, v);
  }

  lemma RoundInvPreCommit(t: Texts, s: State, from: Peer, v: Vote)
    requires RoundInv(t, s) && Counts(t, s, from, v) && v.kind == PreCommit
    ensures RoundInv(t, OnPreCommit(s, from, v))
  {
    if s.prop.step == Precommit {
      PropPreCommit(t, s, from, v);
    }
  }

  lemma RoundInvReceive(t: Texts, s: State, from: Peer, msg: Msg, valid: bool, sent: bool)
    requires RoundInv(t, s)
    ensures RoundInv(t, OnReceive(t, s, from, msg, valid, sent))
  {
    if msg.VoteMsg? && OnVote(t, s, from, msg.vote, sent) != s {
      match msg.vote.kind
      case PreVote => RoundInvPreVote(t, s, from, msg.vote, sent);
      case PreCommit => RoundInvPreCommit(t, s, from, msg.vote);
      case ProposalVote =>
    }
  }

  lemma RoundInvProposeTimeout(t: Texts, s: State, sent: bool)
    requires RoundInv(t, s)
    ensures RoundInv(t, OnProposeTimeout(s, sent))
  {
    assert StepsInOrder(s.prop.(step := Prevote)) && StepsInOrder(s.prop.(step := Prevote, pvDone := true));
  }

  lemma RoundInvPrevoteTimeout(t: Texts, s: State, sent: bool)
    requires RoundInv(t, s)
    ensures RoundInv(t, OnPrevoteTimeout(s, sent))
  {
    assert StepsInOrder(s.prop.(step := Precommit)) && StepsInOrder(s.prop.(step := Precommit, pcDone := true));
  }

  lemma RoundInvBroadcast(t: Texts, s: State, sent: bool)
    requires RoundInv(t, s) && s.timers.pending > 0
    ensures RoundInv(t, OnBroadcast(t, s, sent))
  {
    assert OnBroadcast(t, s, sent).prop == s.prop;
  }

  lemma RoundInvNext(t: Texts, s: State, e: Event)
    requires RoundInv(t, s)
    ensures RoundInv(t, Next(t, s, e))
  {
    if Enabled(s, e) {
      match e
      case Tick(p, env) => RoundInvStart(t, s.(tip := s.tip.(proposer := p)), false, env);
      case Receive(from, msg, valid, sent) => RoundInvReceive(t, s, from, msg, valid, sent);
      case ProposeTimeout(sent) => RoundInvProposeTimeout(t, s, sent);
      case PrevoteTimeout(sent) => RoundInvPrevoteTimeout(t, s, sent);
      case PrecommitTimeout(env) => RoundInvStart(t, s.(timers := s.timers.(precommit := false)), true, env);
      case BlockTimeout =>
      case Broadcast(sent) => RoundInvBroadcast(t, s, sent);
    }
  }
}
