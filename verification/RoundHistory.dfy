/** What a node has said in every run: the messages in its log, epoch by epoch. */
module RoundHistory {
  import opened Objects
  import opened Rounds
  import opened RoundSafety

  predicate IsVote(m: Msg, kind: VoteKind) {
    m.VoteMsg? && m.vote.kind == kind
  }

  // --------------------------------------------------------------------------------------------
  // At most one vote of a kind in an epoch
  // --------------------------------------------------------------------------------------------

  /** No two votes of this kind in one epoch, and none yet in this epoch unless `done`. */
  ghost predicate OnePerEpoch(log: seq<Sent>, epoch: nat, kind: VoteKind, done: bool) {
    && (forall i :: 0 <= i < |log| ==> log[i].epoch <= epoch)
    && (forall i, j :: 0 <= i < j < |log| && IsVote(log[i].msg, kind) && IsVote(log[j].msg, kind) ==>
          log[i].epoch != log[j].epoch)
    && (!done ==> forall i :: 0 <= i < |log| && IsVote(log[i].msg, kind) ==> log[i].epoch < epoch)
  }

  lemma OnePerEpochSent(s: State, log: seq<Sent>, kind: VoteKind, done: bool, m: Msg, sent: bool, done': bool)
    requires OnePerEpoch(log, s.past.epoch, kind, done)
    requires (IsVote(m, kind) ==> !done && done') && (done ==> done')
    ensures OnePerEpoch(WithSent(s, log, m, sent), s.past.epoch, kind, done')
  {
  }

  lemma OnePerEpochReset(log: seq<Sent>, epoch: nat, kind: VoteKind, done: bool)
    requires OnePerEpoch(log, epoch, kind, done)
    ensures OnePerEpoch(log, epoch + 1, kind, false)
  {
  }

  // --------------------------------------------------------------------------------------------
  // The votes of one epoch agree
  // --------------------------------------------------------------------------------------------

  /** A vote that fits the current proposal state. */
  ghost predicate Fits(t: Texts, self: Peer, r: Round, v: Vote) {
    && v.kind != ProposalVote && v.height == r.height && v.round == r.round && v.validator == self
    && (v.block != Blank ==> Denotes(t, v.block) == r.block)
    && (v.block != Blank && v.kind == PreCommit ==>
          v.block == t.str(r.block) && r.lockedValue == r.block && |r.preVotes| > r.f)
  }

  ghost predicate CurrentFit(t: Texts, self: Peer, log: seq<Sent>, epoch: nat, r: Round) {
    forall i :: 0 <= i < |log| && log[i].epoch == epoch && log[i].msg.VoteMsg? ==> Fits(t, self, r, log[i].msg.vote)
  }

  ghost predicate Agree(t: Texts, v: Vote, w: Vote) {
    && v.height == w.height && v.round == w.round
    && (v.block != Blank && w.block != Blank ==> Denotes(t, v.block) == Denotes(t, w.block))
  }

  /** Any two votes of one epoch are for the same height and round, and name the same block
      unless one of them is blank. */
  ghost predicate EpochsAgree(t: Texts, log: seq<Sent>) {
    forall i, j :: 0 <= i < |log| && 0 <= j < |log| && log[i].epoch == log[j].epoch &&
                   log[i].msg.VoteMsg? && log[j].msg.VoteMsg? ==>
      Agree(t, log[i].msg.vote, log[j].msg.vote)
  }

  ghost predicate KnownKinds(log: seq<Sent>) {
    forall i :: 0 <= i < |log| && log[i].msg.VoteMsg? ==> log[i].msg.vote.kind != ProposalVote
  }

  ghost predicate Consistent(t: Texts, self: Peer, log: seq<Sent>, epoch: nat, r: Round) {
    CurrentFit(t, self, log, epoch, r) && EpochsAgree(t, log) && KnownKinds(log)
  }

  lemma ConsistentSent(t: Texts, s: State, r: Round, log: seq<Sent>, m: Msg, sent: bool)
    requires Consistent(t, s.self, log, s.past.epoch, r) && (m.VoteMsg? ==> Fits(t, s.self, r, m.vote))
    ensures Consistent(t, s.self, WithSent(s, log, m, sent), s.past.epoch, r)
  {
    var log' := WithSent(s, log, m, sent);
    forall i, j | 0 <= i < |log'| && 0 <= j < |log'| && log'[i].epoch == log'[j].epoch && log'[i].msg.VoteMsg?
      && log'[j].msg.VoteMsg?
      ensures Agree(t, log'[i].msg.vote, log'[j].msg.vote)
    {
      assert i < |log| ==> log'[i] == log[i];
      assert j < |log| ==> log'[j] == log[j];
      if i >= |log| && j < |log| {
        assert Fits(t, s.self, r, log[j].msg.vote);
      } else if i < |log| && j >= |log| {
        assert Fits(t, s.self, r, log[i].msg.vote);
      }
    }
  }

  lemma ConsistentReset(t: Texts, self: Peer, log: seq<Sent>, epoch: nat, r: Round, r': Round)
    requires Consistent(t, self, log, epoch, r) && forall i :: 0 <= i < |log| ==> log[i].epoch <= epoch
    ensures Consistent(t, self, log, epoch + 1, r')
  {
  }

  /** Within an epoch the height, round and block stay, locks are kept and votes only added. */
  ghost predicate Progresses(r: Round, r': Round) {
    && r'.height == r.height && r'.round == r.round && r'.block == r.block && r'.f == r.f
    && |r'.preVotes| >= |r.preVotes| && (r.lockedValue == r.block ==> r'.lockedValue == r.block)
  }

  lemma ConsistentKeeps(t: Texts, self: Peer, log: seq<Sent>, epoch: nat, r: Round, r': Round)
    requires Consistent(t, self, log, epoch, r) && Progresses(r, r')
    ensures Consistent(t, self, log, epoch, r')
  {
  }

  lemma ConsistentFresh(t: Texts, self: Peer, log: seq<Sent>, epoch: nat, r: Round, r': Round)
    requires Consistent(t, self, log, epoch, r)
    requires OnePerEpoch(log, epoch, PreVote, false) && OnePerEpoch(log, epoch, PreCommit, false)
    ensures Consistent(t, self, log, epoch, r')
  {
  }

  // --------------------------------------------------------------------------------------------
  // The whole log
  // --------------------------------------------------------------------------------------------

  ghost predicate LogInv(t: Texts, s: State) {
    && OnePerEpoch(s.past.log, s.past.epoch, PreVote, s.prop.pvDone)
    && OnePerEpoch(s.past.log, s.past.epoch, PreCommit, s.prop.pcDone)
    && Consistent(t, s.self, s.past.log, s.past.epoch, s.prop)
  }

  /** A step that may change the proposal state and send one message. */
  lemma LogInvSent(t: Texts, s: State, s': State, m: Msg, sent: bool)
    requires LogInv(t, s) && s'.self == s.self && s'.past.epoch == s.past.epoch
    requires s'.past.log == WithSent(s, s.past.log, m, sent)
    requires (s.prop.pvDone ==> s'.prop.pvDone) && (s.prop.pcDone ==> s'.prop.pcDone)
    requires IsVote(m, PreVote) ==> !s.prop.pvDone && s'.prop.pvDone
    requires IsVote(m, PreCommit) ==> !s.prop.pcDone && s'.prop.pcDone
    requires m.VoteMsg? ==> Fits(t, s.self, s'.prop, m.vote)
    requires Progresses(s.prop, s'.prop) || (!s.prop.pvDone && !s.prop.pcDone)
    ensures LogInv(t, s')
  {
    var log := s.past.log;
    OnePerEpochSent(s, log, PreVote, s.prop.pvDone, m, sent, s'.prop.pvDone);
    OnePerEpochSent(s, log, PreCommit, s.prop.pcDone, m, sent, s'.prop.pcDone);
    if Progresses(s.prop, s'.prop) {
      ConsistentKeeps(t, s.self, log, s.past.epoch, s.prop, s'.prop);
    } else {
      ConsistentFresh(t, s.self, log, s.past.epoch, s.prop, s'.prop);
    }
    ConsistentSent(t, s, s'.prop, log, m, sent);
  }

  /** A step that sends nothing and stays in the epoch. */
  lemma LogInvSilent(t: Texts, s: State, s': State)
    requires LogInv(t, s) && s'.self == s.self && s'.past.epoch == s.past.epoch && s'.past.log == s.past.log
    requires (s.prop.pvDone ==> s'.prop.pvDone) && (s.prop.pcDone ==> s'.prop.pcDone) && Progresses(s.prop, s'.prop)
    ensures LogInv(t, s')
  {
    ConsistentKeeps(t, s.self, s.past.log, s.past.epoch, s.prop, s'.prop);
  }

  lemma LogInvReset(t: Texts, s: State, s': State)
    requires LogInv(t, s) && s'.self == s.self && s'.past.epoch == s.past.epoch + 1 && s'.past.log == s.past.log
    ensures LogInv(t, s'.(prop := s'.prop.(pvDone := false, pcDone := false)))
  {
    OnePerEpochReset(s.past.log, s.past.epoch, PreVote, s.prop.pvDone);
    OnePerEpochReset(s.past.log, s.past.epoch, PreCommit, s.prop.pcDone);
    var r := s'.prop.(pvDone := false, pcDone := false);
    ConsistentReset(t, s.self, s.past.log, s.past.epoch, s.prop, r);
  }

  lemma LogInvLead(t: Texts, s: State, env: RoundEnv)
    requires LogInv(t, s) && !s.prop.pvDone && !s.prop.pcDone
    ensures LogInv(t, Lead(t, s, env))
  {
    var r := Lead(t, s, env);
    var hello := NewRound(s.prop.height, s.prop.round);
    var a := s.(past := Logged(s, hello, env.newRoundSent));
    LogInvSent(t, s, a, hello, env.newRoundSent);
    LeadFrame(t, s, env);
    var m := Proposal(s.prop.height, s.prop.round, t.str(LeadBlock(s, env)));
    LogInvSent(t, a, r, m, ReachesProposal(s, env) && env.proposalSent);
  }

  lemma LogInvStart(t: Texts, s: State, inc: bool, env: RoundEnv)
    requires LogInv(t, s)
    ensures LogInv(t, StartRound(t, s, inc, env))
  {
    var o := s.(prop := Opened(s, inc), timers := s.timers.(prevote := true), past := NextEpoch(s.past));
    LogInvReset(t, s, o);
    if o.prop.amProposer {
      LogInvLead(t, o, env);
    } else {
      LogInvReset(t, s, StartRound(t, s, inc, env));
    }
  }

  lemma LogInvProposal(t: Texts, s: State, from: Peer, x: Text, valid: bool, sent: bool)
    requires RoundInv(t, s) && LogInv(t, s)
    ensures LogInv(t, OnProposal(t, s, from, x, valid, sent))
  {
    if from == s.tip.proposer && s.prop.step == Propose && !s.prop.pvDone {
      LogInvSent(t, s, OnProposal(t, s, from, x, valid, sent), OwnVote(s, PreVote, PrevoteText(t, x, valid)), sent);
    }
  }

  lemma LogInvPreVote(t: Texts, s: State, from: Peer, v: Vote, sent: bool)
    requires SoundText(t) && RoundInv(t, s) && LogInv(t, s)
    ensures LogInv(t, OnPreVote(t, s, from, v, sent))
  {
    var r := OnPreVote(t, s, from, v, sent);
    if s.prop.step == Prevote {
      AddedVote(s.prop.preVotes, from, v);
      if Locks(s.prop, from, v) {
        LockFits(t, s, from, v);
        LogInvSent(t, s, r, OwnVote(s, PreCommit, t.str(s.prop.block)), sent);
      } else {
        assert Progresses(s.prop, r.prop);
        LogInvSilent(t, s, r);
      }
    }
  }

  lemma LockFits(t: Texts, s: State, from: Peer, v: Vote)
    requires SoundText(t) && StepsInOrder(s.prop) && Locks(s.prop, from, v)
    ensures var r := Locked(WithPreVote(s.prop, from, v));
            Progresses(s.prop, r) && Fits(t, s.self, r, OwnVote(s, PreCommit, t.str(s.prop.block)).vote)
  {
    AddedVote(s.prop.preVotes, from, v);
    StrDenotes(t, s.prop.block);
  }

  lemma StrDenotes(t: Texts, c: Cid)
    requires SoundText(t)
    ensures Denotes(t, t.str(c)) == c
  {
  }

  lemma PreCommitFrame(s: State, from: Peer, v: Vote)
    ensures var r := OnPreCommit(s, from, v);
            && r.self == s.self && r.past.epoch == s.past.epoch && r.past.log == s.past.log
            && r.prop.pvDone == s.prop.pvDone && r.prop.pcDone == s.prop.pcDone && Progresses(s.prop, r.prop)
  {
    if s.prop.step == Precommit && Completes(s.prop, from, v) {
      assert OnPreCommit(s, from, v).prop == WithPreCommit(s.prop, from, v).(step := Committing, sbDone := true);
    }
  }

  lemma LogInvPreCommit(t: Texts, s: State, from: Peer, v: Vote)
    requires LogInv(t, s)
    ensures LogInv(t, OnPreCommit(s, from, v))
  {
    PreCommitFrame(s, from, v);
    LogInvSilent(t, s, OnPreCommit(s, from, v));
  }

  lemma LogInvBlock(t: Texts, s: State, from: Peer, round: nat, cid: Text)
    requires LogInv(t, s)
    ensures LogInv(t, OnBlock(t, s, from, round, cid))
  {
    LogInvSilent(t, s, OnBlock(t, s, from, round, cid));
  }

  lemma LogInvReceive(t: Texts, s: State, from: Peer, msg: Msg, valid: bool, sent: bool)
    requires SoundText(t) && RoundInv(t, s) && LogInv(t, s)
    ensures LogInv(t, OnReceive(t, s, from, msg, valid, sent))
  {
    var r := OnReceive(t, s, from, msg, valid, sent);
    match msg
    case NewRound(_, _) =>
      if from == s.tip.proposer {
        LogInvReset(t, s, r);
      }
    case Proposal(_, _, x) => LogInvProposal(t, s, from, x, valid, sent);
    case VoteMsg(v) =>
      if v.kind == PreVote {
        LogInvPreVote(t, s, from, v, sent);
      } else if r != s {
        LogInvPreCommit(t, s, from, v);
      }
    case BlockMsg(_, h, c) => LogInvBlock(t, s, from, h, c);
  }

  lemma LogInvProposeTimeout(t: Texts, s: State, sent: bool)
    requires LogInv(t, s)
    ensures LogInv(t, OnProposeTimeout(s, sent))
  {
    var r := OnProposeTimeout(s, sent);
    if (s.prop.height != s.tip.height && s.prop.step != Propose) || s.prop.pvDone {
      LogInvSilent(t, s, r);
    } else {
      LogInvSent(t, s, r, OwnVote(s, PreVote, Blank), sent);
    }
  }

  lemma LogInvPrevoteTimeout(t: Texts, s: State, sent: bool)
    requires LogInv(t, s)
    ensures LogInv(t, OnPrevoteTimeout(s, sent))
  {
    var r := OnPrevoteTimeout(s, sent);
    if (s.prop.height != s.tip.height && s.prop.step != Prevote) || s.prop.pcDone {
      LogInvSilent(t, s, r);
    } else {
      LogInvSent(t, s, r, OwnVote(s, PreCommit, Blank), sent);
    }
  }

  lemma LogInvBroadcast(t: Texts, s: State, sent: bool)
    requires LogInv(t, s) && s.timers.pending > 0
    ensures LogInv(t, OnBroadcast(t, s, sent))
  {
    var m := BlockMsg(s.prop.height, s.prop.lockedRound, t.str(s.prop.lockedValue));
    LogInvSent(t, s, OnBroadcast(t, s, sent), m, sent);
  }

  lemma LogInvNext(t: Texts, s: State, e: Event)
    requires SoundText(t) && RoundInv(t, s) && LogInv(t, s)
    ensures LogInv(t, Next(t, s, e))
  {
    if Enabled(s, e) {
      match e
      case Tick(p, env) => LogInvStart(t, s.(tip := s.tip.(proposer := p)), false, env);
      case Receive(from, msg, valid, sent) => LogInvReceive(t, s, from, msg, valid, sent);
      case ProposeTimeout(sent) => LogInvProposeTimeout(t, s, sent);
      case PrevoteTimeout(sent) => LogInvPrevoteTimeout(t, s, sent);
      case PrecommitTimeout(env) => LogInvStart(t, s.(timers := s.timers.(precommit := false)), true, env);
      case BlockTimeout =>
      case Broadcast(sent) => LogInvBroadcast(t, s, sent);
    }
  }
}
