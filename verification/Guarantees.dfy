/** What each handler guarantees, whatever it is called with, in every state that the invariant
    allows.  The engine's methods promise the same of the object. */
module Guarantees {
  import opened Objects
  import opened Rounds
  import opened RoundSafety
  import opened RoundHistory
  import opened RoundRecords
  import opened RoundEpochs
  import opened RoundTheorems

  // --------------------------------------------------------------------------------------------
  // The guarantees
  // --------------------------------------------------------------------------------------------

  /** Nothing is committed, and the committed state stays. */
  ghost predicate KeepsTip(s: State, r: State) {
    r.tip == s.tip && r.past.commits == s.past.commits
  }

  ghost predicate KeepsLocks(s: State, r: State) {
    r.past.locks == s.past.locks && r.prop.lockedValue == s.prop.lockedValue && r.prop.lockedRound == s.prop.lockedRound
  }

  /** No vote, no lock and no once flag of an earlier epoch is left, and the epoch is new. */
  ghost predicate StartsAfresh(s: State, r: State) {
    && r.past.epoch == s.past.epoch + 1 && r.past.locks == s.past.locks && r.past.commits == s.past.commits
    && r.prop.preVotes == map[] && r.prop.preCommits == map[] && r.prop.lockedValue == Undef
    && !r.prop.pvDone && !r.prop.pcDone && !r.prop.sbDone
    && r.tip.height == s.tip.height && r.tip.block == s.tip.block
  }

  /** No vote of this kind has been sent in the current epoch. */
  ghost predicate NotYet(s: State, kind: VoteKind) {
    forall i :: 0 <= i < |s.past.log| && IsVote(s.past.log[i].msg, kind) ==> s.past.log[i].epoch < s.past.epoch
  }

  /** At most one vote goes out, the first of its kind in the epoch, for the current height and round
      and with this text. */
  ghost predicate SendsAtMost(s: State, r: State, kind: VoteKind, x: Text) {
    || r.past.log == s.past.log
    || (NotYet(s, kind) && r.past.log == s.past.log + [Sent(s.past.epoch, OwnVote(s, kind, x))])
  }

  /** A prevote for a block only if the validator accepts it; that block is then the proposed one, and
      nothing else counts as validated. */
  ghost predicate PrevotesValidated(t: Texts, s: State, r: State, x: Text, valid: bool) {
    && r.past.validated <= s.past.validated + {if valid then Denotes(t, x) else Undef}
    && (|| r.past.log == s.past.log
        || (SendsAtMost(s, r, PreVote, t.str(Undef)) && r.prop.block == Undef)
        || (valid && SendsAtMost(s, r, PreVote, x) && r.prop.block == Denotes(t, x)
            && r.prop.block in r.past.validated))
  }

  /** A lock only on a quorum of prevotes for exactly what is locked, and only one in an epoch; with it
      goes the precommit for it, and nothing else is sent. */
  ghost predicate LocksOnQuorum(t: Texts, s: State, r: State) {
    || (KeepsLocks(s, r) && r.past.log == s.past.log)
    || (exists l :: r.past.locks == s.past.locks + [l] && JustifiedLock(t, s, r, l))
  }

  ghost predicate JustifiedLock(t: Texts, s: State, r: State, l: Lock) {
    && LockJustified(t, l) && l.epoch == s.past.epoch && l.block == r.prop.lockedValue == s.prop.block
    && l.round == r.prop.lockedRound && (forall i :: 0 <= i < |s.past.locks| ==> s.past.locks[i].epoch < l.epoch)
    && SendsAtMost(s, r, PreCommit, t.str(l.block))
  }

  /** The committing step only on more than f precommits for exactly what is being voted on. */
  ghost predicate CompletesOnQuorum(t: Texts, s: State, r: State) {
    r.prop.step == Committing && s.prop.step != Committing ==>
      && |r.prop.preCommits| > r.prop.f
      && Matching(t, r.prop.preCommits, PreCommit, r.tip.proposer, r.prop.height, r.prop.round, r.prop.block)
  }

  /** The committed height and block move only with a commit.  It has more than f precommits, for a
      block it has both quorums behind it and the block is vetted, and in one epoch there is only one
      value to commit. */
  ghost predicate CommitsOnQuorum(t: Texts, s: State, r: State) {
    || (r.past.commits == s.past.commits && r.tip == s.tip.(proposer := r.tip.proposer))
    || (exists c :: r.past.commits == s.past.commits + [c] && NewCommit(t, s, r, c))
  }

  ghost predicate NewCommit(t: Texts, s: State, r: State, c: Commit) {
    && r.tip == Tip(s.tip.proposer, c.height, c.block, s.tip.block) && c.epoch == s.past.epoch
    && |c.preCommits| > c.f && (c.block != Undef ==> CommitJustified(t, c)) && Vetted(r.past, c.block)
    && (forall i :: 0 <= i < |s.past.commits| && s.past.commits[i].epoch == c.epoch ==>
          SameCommit(s.past.commits[i], c))
  }

  /** What is announced, if it is a block, was locked in this epoch. */
  ghost predicate AnnouncesLocked(t: Texts, s: State, r: State) {
    && (r.past.log == s.past.log || r.past.log == s.past.log + [Sent(s.past.epoch, Announcement(t, s))])
    && (s.prop.lockedValue != Undef ==>
          LockedIn(s.past.locks, s.past.epoch, s.prop.lockedRound, s.prop.lockedValue))
  }

  // --------------------------------------------------------------------------------------------
  // The handlers meet them
  // --------------------------------------------------------------------------------------------

  lemma ProposalGuarantee(t: Texts, s: State, from: Peer, x: Text, valid: bool, sent: bool)
    requires LogInv(t, s)
    ensures var r := OnProposal(t, s, from, x, valid, sent);
            KeepsTip(s, r) && KeepsLocks(s, r) && PrevotesValidated(t, s, r, x, valid)
  {
  }

  lemma PreVoteGuarantee(t: Texts, s: State, from: Peer, v: Vote, sent: bool)
    requires Inv(t, s) && Counts(t, s, from, v) && v.kind == PreVote
    ensures var r := OnPreVote(t, s, from, v, sent);
            KeepsTip(s, r) && LocksOnQuorum(t, s, r) && r.prop.preCommits == s.prop.preCommits
            && (r.prop.step == Committing ==> s.prop.step == Committing)
  {
    var r := OnPreVote(t, s, from, v, sent);
    if s.prop.step == Prevote && Locks(s.prop, from, v) {
      var l := LockOf(s, WithPreVote(s.prop, from, v));
      LockGuarantee(t, s, from, v, sent);
      assert r.past.locks == s.past.locks + [l] && JustifiedLock(t, s, r, l);
    }
  }

  lemma LockGuarantee(t: Texts, s: State, from: Peer, v: Vote, sent: bool)
    requires Inv(t, s) && Counts(t, s, from, v) && v.kind == PreVote && s.prop.step == Prevote && Locks(s.prop, from, v)
    ensures JustifiedLock(t, s, OnPreVote(t, s, from, v, sent), LockOf(s, WithPreVote(s.prop, from, v)))
  {
    PropPreVote(t, s, from, v);
    var r := OnPreVote(t, s, from, v, sent);
    assert r.prop == Locked(WithPreVote(s.prop, from, v));
    assert NotYet(s, PreCommit);
  }

  lemma PreCommitGuarantee(t: Texts, s: State, from: Peer, v: Vote)
    requires RoundInv(t, s) && Counts(t, s, from, v) && v.kind == PreCommit
    ensures var r := OnPreCommit(s, from, v);
            KeepsTip(s, r) && KeepsLocks(s, r) && r.past.log == s.past.log && CompletesOnQuorum(t, s, r)
  {
    RoundInvPreCommit(t, s, from, v);
    PreCommitFrame(s, from, v);
    if s.prop.step == Precommit && Completes(s.prop, from, v) {
      assert OnPreCommit(s, from, v).prop == WithPreCommit(s.prop, from, v).(step := Committing, sbDone := true);
    }
  }

  lemma VoteGuarantee(t: Texts, s: State, from: Peer, v: Vote, sent: bool)
    requires Inv(t, s)
    ensures var r := OnVote(t, s, from, v, sent);
            KeepsTip(s, r) && LocksOnQuorum(t, s, r) && CompletesOnQuorum(t, s, r)
  {
    if Counts(t, s, from, v) {
      match v.kind
      case PreVote => PreVoteGuarantee(t, s, from, v, sent);
      case PreCommit => PreCommitGuarantee(t, s, from, v);
      case ProposalVote =>
    }
  }

  lemma CommitGuarantee(t: Texts, s: State, r: State)
    requires Inv(t, s) && Commits(s, r) && r.past.built == s.past.built && r.past.validated == s.past.validated
    requires r.tip == s.tip.(height := s.prop.height, parent := s.tip.block, block := s.prop.lockedValue)
    ensures CommitsOnQuorum(t, s, r)
  {
    var c := CommitOf(s);
    assert NewCommit(t, s, r, c);
  }

  lemma BlockGuarantee(t: Texts, s: State, from: Peer, round: nat, cid: Text)
    requires Inv(t, s)
    ensures CommitsOnQuorum(t, s, OnBlock(t, s, from, round, cid))
  {
    if BlockAccepted(t, s, from, round, cid) {
      CommitGuarantee(t, s, OnBlock(t, s, from, round, cid));
    }
  }

  lemma BroadcastGuarantee(t: Texts, s: State, sent: bool)
    requires Inv(t, s) && s.timers.pending > 0
    ensures var r := OnBroadcast(t, s, sent);
            CommitsOnQuorum(t, s, r) && AnnouncesLocked(t, s, r) && r.prop == s.prop
  {
    var r := OnBroadcast(t, s, sent);
    if r.past.commits != s.past.commits {
      CommitGuarantee(t, s, r);
    }
  }

  lemma ProposeTimeoutGuarantee(t: Texts, s: State, sent: bool)
    requires LogInv(t, s)
    ensures var r := OnProposeTimeout(s, sent);
            KeepsTip(s, r) && KeepsLocks(s, r) && SendsAtMost(s, r, PreVote, Blank)
  {
  }

  lemma PrevoteTimeoutGuarantee(t: Texts, s: State, sent: bool)
    requires LogInv(t, s)
    ensures var r := OnPrevoteTimeout(s, sent);
            KeepsTip(s, r) && KeepsLocks(s, r) && SendsAtMost(s, r, PreCommit, Blank)
  {
  }

  ghost predicate ReceiveGuaranteed(t: Texts, s: State, from: Peer, msg: Msg, valid: bool, r: State) {
    match msg
    case NewRound(h, n) =>
      if from == s.tip.proposer then StartsAfresh(s, r) && r.prop.height == h && r.prop.round == n else r == s
    case Proposal(_, _, x) => KeepsTip(s, r) && KeepsLocks(s, r) && PrevotesValidated(t, s, r, x, valid)
    case VoteMsg(_) => KeepsTip(s, r) && LocksOnQuorum(t, s, r) && CompletesOnQuorum(t, s, r)
    case BlockMsg(_, _, _) => r.prop == s.prop && KeepsLocks(s, r) && r.past.log == s.past.log
  }

  lemma ReceiveGuarantee(t: Texts, s: State, from: Peer, msg: Msg, valid: bool, sent: bool)
    requires Inv(t, s)
    ensures var r := OnReceive(t, s, from, msg, valid, sent);
            CommitsOnQuorum(t, s, r) && ReceiveGuaranteed(t, s, from, msg, valid, r)
  {
    match msg
    case NewRound(_, _) =>
    case Proposal(_, _, x) => ProposalGuarantee(t, s, from, x, valid, sent);
    case VoteMsg(v) => VoteGuarantee(t, s, from, v, sent);
    case BlockMsg(_, r, c) => BlockGuarantee(t, s, from, r, c);
  }

  /** All that can happen at an event.  Whatever it is, the committed state moves only on a quorum. */
  ghost predicate Guaranteed(t: Texts, s: State, e: Event, r: State) {
    && CommitsOnQuorum(t, s, r)
    && if !Enabled(s, e) then r == s
       else match e
         case Tick(p, _) => StartsAfresh(s, r) && r.prop.round == 1 && r.tip.proposer == p
         case Receive(from, msg, valid, _) => ReceiveGuaranteed(t, s, from, msg, valid, r)
         case ProposeTimeout(_) => KeepsTip(s, r) && KeepsLocks(s, r) && SendsAtMost(s, r, PreVote, Blank)
         case PrevoteTimeout(_) => KeepsTip(s, r) && KeepsLocks(s, r) && SendsAtMost(s, r, PreCommit, Blank)
         case PrecommitTimeout(_) =>
           && s.prop.step != Committing && StartsAfresh(s, r) && r.tip == s.tip
           && r.prop.round == (s.prop.round + 1) % TwoTo32
         case BlockTimeout => r == s.(timers := s.timers.(block := false))
         case Broadcast(_) => AnnouncesLocked(t, s, r) && r.prop == s.prop
  }

  lemma StartGuarantee(t: Texts, s: State, inc: bool, env: RoundEnv)
    ensures var r := StartRound(t, s, inc, env);
            && StartsAfresh(s, r) && r.tip == s.tip
            && r.prop.round == if inc then (s.prop.round + 1) % TwoTo32 else 1
  {
    StartFrame(t, s, inc, env);
  }

  lemma TickGuarantee(t: Texts, s: State, p: Peer, env: RoundEnv)
    ensures Guaranteed(t, s, Tick(p, env), OnTick(t, s, p, env))
  {
    StartGuarantee(t, s.(tip := s.tip.(proposer := p)), false, env);
  }

  lemma PrecommitTimeoutGuarantee(t: Texts, s: State, env: RoundEnv)
    requires RoundInv(t, s) && s.timers.precommit
    ensures Guaranteed(t, s, PrecommitTimeout(env), OnPrecommitTimeout(t, s, env))
  {
    StartGuarantee(t, s.(timers := s.timers.(precommit := false)), true, env);
  }

  lemma NextGuarantee(t: Texts, s: State, e: Event)
    requires Inv(t, s)
    ensures Guaranteed(t, s, e, Next(t, s, e))
  {
    if Enabled(s, e) {
      match e
      case Tick(p, env) => TickGuarantee(t, s, p, env);
      case Receive(from, msg, valid, sent) => ReceiveGuarantee(t, s, from, msg, valid, sent);
      case ProposeTimeout(sent) => ProposeTimeoutGuarantee(t, s, sent);
      case PrevoteTimeout(sent) => PrevoteTimeoutGuarantee(t, s, sent);
      case PrecommitTimeout(env) => PrecommitTimeoutGuarantee(t, s, env);
      case BlockTimeout =>
      case Broadcast(sent) => BroadcastGuarantee(t, s, sent);
    }
  }
}
