/** What a node has locked, scheduled, broadcast and committed in every run. */
module RoundRecords {
  import opened Objects
  import opened Rounds
  import opened RoundSafety
  import opened RoundHistory

  // --------------------------------------------------------------------------------------------
  // Vetting: nothing is voted for, locked or committed unless built or validated here
  // --------------------------------------------------------------------------------------------

  ghost predicate Vetted(h: History, c: Cid) {
    c == Undef || c in h.built || c in h.validated
  }

  ghost predicate VoteVetted(t: Texts, h: History, v: Vote) {
    v.block != Blank && Denotes(t, v.block) != Undef ==>
      Vetted(h, Denotes(t, v.block)) && (v.kind == PreVote ==> Denotes(t, v.block) in h.validated)
  }

  ghost predicate VettedInv(t: Texts, s: State) {
    && Vetted(s.past, s.prop.block)
    && (forall i :: 0 <= i < |s.past.log| && s.past.log[i].msg.VoteMsg? ==>
          VoteVetted(t, s.past, s.past.log[i].msg.vote))
    && (forall i :: 0 <= i < |s.past.locks| ==> Vetted(s.past, s.past.locks[i].block))
    && (forall i :: 0 <= i < |s.past.commits| ==> Vetted(s.past, s.past.commits[i].block))
  }

  // --------------------------------------------------------------------------------------------
  // Locks, broadcasts and commits
  // --------------------------------------------------------------------------------------------

  /** More than f prevotes for exactly the locked block, none from the proposer. */
  ghost predicate LockJustified(t: Texts, l: Lock) {
    |l.preVotes| > l.f && Matching(t, l.preVotes, PreVote, l.proposer, l.height, l.round, l.block)
  }

  /** More than f prevotes and more than f precommits for exactly the committed block. */
  ghost predicate CommitJustified(t: Texts, c: Commit) {
    && |c.preVotes| > c.f && Matching(t, c.preVotes, PreVote, c.proposer, c.height, c.round, c.block)
    && |c.preCommits| > c.f && Matching(t, c.preCommits, PreCommit, c.proposer, c.height, c.round, c.block)
  }

  ghost predicate LockedIn(locks: seq<Lock>, epoch: nat, round: nat, block: Cid) {
    exists i :: 0 <= i < |locks| && locks[i].epoch == epoch && locks[i].round == round && locks[i].block == block
  }

  ghost predicate LockInv(t: Texts, s: State) {
    var locks := s.past.locks;
    && (forall i :: 0 <= i < |locks| ==> LockJustified(t, locks[i]) && locks[i].epoch <= s.past.epoch)
    && (forall i, j :: 0 <= i < j < |locks| ==> locks[i].epoch != locks[j].epoch)
    && (!s.prop.pcDone ==> forall i :: 0 <= i < |locks| ==> locks[i].epoch < s.past.epoch)
    && (s.prop.lockedValue != Undef ==> LockedIn(locks, s.past.epoch, s.prop.lockedRound, s.prop.lockedValue))
  }

  ghost predicate ScheduleInv(s: State) {
    var q := s.past.scheduled;
    && (forall i :: 0 <= i < |q| ==> q[i] <= s.past.epoch && (q[i] == s.past.epoch ==> s.prop.sbDone))
    && (forall i, j :: 0 <= i < j < |q| ==> q[i] != q[j])
  }

  /** A broadcast names a block that was locked in the epoch of the broadcast. */
  ghost predicate BroadcastLocked(t: Texts, locks: seq<Lock>, e: Sent) {
    e.msg.BlockMsg? && e.msg.cid != t.str(Undef) ==>
      exists i :: 0 <= i < |locks| && locks[i].epoch == e.epoch && locks[i].round == e.msg.round
        && t.str(locks[i].block) == e.msg.cid
  }

  ghost predicate BroadcastInv(t: Texts, s: State) {
    forall i :: 0 <= i < |s.past.log| ==> BroadcastLocked(t, s.past.locks, s.past.log[i])
  }

  ghost predicate CommitInv(t: Texts, s: State) {
    forall i :: 0 <= i < |s.past.commits| && s.past.commits[i].block != Undef ==>
      && CommitJustified(t, s.past.commits[i])
      && LockedIn(s.past.locks, s.past.commits[i].epoch, s.past.commits[i].round, s.past.commits[i].block)
  }

  ghost predicate RecordInv(t: Texts, s: State) {
    VettedInv(t, s) && LockInv(t, s) && ScheduleInv(s) && BroadcastInv(t, s) && CommitInv(t, s)
  }

  // --------------------------------------------------------------------------------------------
  // Steps that record nothing new
  // --------------------------------------------------------------------------------------------

  ghost predicate Harmless(t: Texts, h: History, m: Msg) {
    !m.BlockMsg? && (m.VoteMsg? ==> VoteVetted(t, h, m.vote))
  }

  ghost predicate GrowsHarmlessly(t: Texts, h: History, h': History) {
    && h'.locks == h.locks && h'.scheduled == h.scheduled && h'.commits == h.commits
    && h.built <= h'.built && h.validated <= h'.validated
    && h.log <= h'.log && (forall i :: |h.log| <= i < |h'.log| ==> Harmless(t, h', h'.log[i].msg))
  }

  ghost predicate KeepsMarks(s: State, s': State) {
    if s'.past.epoch == s.past.epoch then
      && (s.prop.pcDone ==> s'.prop.pcDone) && (s.prop.sbDone ==> s'.prop.sbDone)
      && s'.prop.lockedValue == s.prop.lockedValue && s'.prop.lockedRound == s.prop.lockedRound
    else
      s'.past.epoch > s.past.epoch && s'.prop.lockedValue == Undef
  }

  lemma RecordInvQuiet(t: Texts, s: State, s': State)
    requires RecordInv(t, s) && GrowsHarmlessly(t, s.past, s'.past) && KeepsMarks(s, s')
    requires Vetted(s'.past, s'.prop.block)
    ensures RecordInv(t, s')
  {
    VettedQuiet(t, s, s');
    BroadcastQuiet(t, s, s');
  }

  lemma VettedQuiet(t: Texts, s: State, s': State)
    requires VettedInv(t, s) && GrowsHarmlessly(t, s.past, s'.past) && Vetted(s'.past, s'.prop.block)
    ensures VettedInv(t, s')
  {
    forall i | 0 <= i < |s'.past.log| && s'.past.log[i].msg.VoteMsg?
      ensures VoteVetted(t, s'.past, s'.past.log[i].msg.vote)
    {
      if i < |s.past.log| {
        assert s'.past.log[i] == s.past.log[i];
      }
    }
  }

  lemma BroadcastQuiet(t: Texts, s: State, s': State)
    requires BroadcastInv(t, s) && GrowsHarmlessly(t, s.past, s'.past)
    ensures BroadcastInv(t, s')
  {
    forall i | 0 <= i < |s'.past.log| ensures BroadcastLocked(t, s'.past.locks, s'.past.log[i]) {
      if i < |s.past.log| {
        assert s'.past.log[i] == s.past.log[i];
      } else {
        assert Harmless(t, s'.past, s'.past.log[i].msg);
      }
    }
  }

  lemma RecordInvStart(t: Texts, s: State, inc: bool, env: RoundEnv)
    requires RecordInv(t, s)
    ensures RecordInv(t, StartRound(t, s, inc, env))
  {
    var r := StartRound(t, s, inc, env);
    StartFrame(t, s, inc, env);
    StartGrows(t, s, inc, env);
    RecordInvQuiet(t, s, r);
  }

  lemma StartGrows(t: Texts, s: State, inc: bool, env: RoundEnv)
    requires Vetted(s.past, s.prop.block)
    ensures GrowsHarmlessly(t, s.past, StartRound(t, s, inc, env).past)
    ensures Vetted(StartRound(t, s, inc, env).past, StartRound(t, s, inc, env).prop.block)
  {
    var o := s.(prop := Opened(s, inc), timers := s.timers.(prevote := true), past := NextEpoch(s.past));
    if o.prop.amProposer {
      LeadGrows(t, o, env);
    }
  }

  lemma LeadGrows(t: Texts, s: State, env: RoundEnv)
    requires Vetted(s.past, s.prop.block)
    ensures GrowsHarmlessly(t, s.past, LeadPast(t, s, env))
    ensures Vetted(LeadPast(t, s, env), LeadProp(s, env).block)
  {
    assert GrowsHarmlessly(t, s.past, LeadBase(s, env));
  }

  lemma RecordInvNewRound(t: Texts, s: State, from: Peer, height: nat, round: nat)
    requires RecordInv(t, s)
    ensures RecordInv(t, OnNewRound(s, from, height, round))
  {
    RecordInvQuiet(t, s, OnNewRound(s, from, height, round));
  }

  lemma RecordInvProposal(t: Texts, s: State, from: Peer, x: Text, valid: bool, sent: bool)
    requires RecordInv(t, s)
    ensures RecordInv(t, OnProposal(t, s, from, x, valid, sent))
  {
    var r := OnProposal(t, s, from, x, valid, sent);
    assert VoteVetted(t, s.past.(validated := s.past.validated + {Validate(t, x, valid)}),
                      Vote(PreVote, s.prop.height, s.prop.round, PrevoteText(t, x, valid), s.self));
    RecordInvQuiet(t, s, r);
  }

  lemma RecordInvProposeTimeout(t: Texts, s: State, sent: bool)
    requires RecordInv(t, s)
    ensures RecordInv(t, OnProposeTimeout(s, sent))
  {
    RecordInvQuiet(t, s, OnProposeTimeout(s, sent));
  }

  lemma RecordInvPrevoteTimeout(t: Texts, s: State, sent: bool)
    requires RecordInv(t, s)
    ensures RecordInv(t, OnPrevoteTimeout(s, sent))
  {
    RecordInvQuiet(t, s, OnPrevoteTimeout(s, sent));
  }

  // --------------------------------------------------------------------------------------------
  // Steps that lock, schedule, broadcast or commit
  // --------------------------------------------------------------------------------------------

  lemma RecordInvPreVote(t: Texts, s: State, from: Peer, v: Vote, sent: bool)
    requires SoundText(t) && RoundInv(t, s) && RecordInv(t, s) && Counts(t, s, from, v) && v.kind == PreVote
    ensures RecordInv(t, OnPreVote(t, s, from, v, sent))
  {
    if s.prop.step == Prevote {
      if Locks(s.prop, from, v) {
        RecordInvLock(t, s, from, v, sent);
      } else {
        RecordInvQuiet(t, s, OnPreVote(t, s, from, v, sent));
      }
    }
  }

  lemma RecordInvLock(t: Texts, s: State, from: Peer, v: Vote, sent: bool)
    requires SoundText(t) && RoundInv(t, s) && RecordInv(t, s) && Counts(t, s, from, v) && v.kind == PreVote
    requires s.prop.step == Prevote && Locks(s.prop, from, v)
    ensures RecordInv(t, OnPreVote(t, s, from, v, sent))
  {
    var r := OnPreVote(t, s, from, v, sent);
    var l := LockOf(s, WithPreVote(s.prop, from, v));
    // the precommit that goes out with the lock, seen before the lock is recorded
    var q := s.(past := Logged(s, OwnVote(s, PreCommit, t.str(s.prop.block)), sent));
    StrDenotes(t, s.prop.block);
    RecordInvQuiet(t, s, q);
    PropPreVote(t, s, from, v);
    assert LockJustified(t, l);
    LockAdded(t, q, r, l);
  }

  lemma LockAdded(t: Texts, s: State, s': State, l: Lock)
    requires RecordInv(t, s) && !s.prop.pcDone && s'.past == s.past.(locks := s.past.locks + [l])
    requires LockJustified(t, l) && l.epoch == s.past.epoch && l.block == s.prop.block
    requires s'.prop.block == s.prop.block && s'.prop.pcDone && (s.prop.sbDone ==> s'.prop.sbDone)
    requires s'.prop.lockedValue == l.block && s'.prop.lockedRound == l.round
    ensures RecordInv(t, s')
  {
    LockedInGrows(t, s, s', l);
    assert s'.past.locks[|s.past.locks|] == l;
  }

  lemma LockedInGrows(t: Texts, s: State, s': State, l: Lock)
    requires BroadcastInv(t, s) && CommitInv(t, s) && s'.past == s.past.(locks := s.past.locks + [l])
    ensures BroadcastInv(t, s') && CommitInv(t, s')
  {
    var locks, locks' := s.past.locks, s'.past.locks;
    assert forall i :: 0 <= i < |locks| ==> locks'[i] == locks[i];
    forall i | 0 <= i < |s.past.log| ensures BroadcastLocked(t, locks', s.past.log[i]) {
      assert BroadcastLocked(t, locks, s.past.log[i]);
    }
    forall i | 0 <= i < |s.past.commits| && s.past.commits[i].block != Undef
      ensures LockedIn(locks', s.past.commits[i].epoch, s.past.commits[i].round, s.past.commits[i].block)
    {
      assert LockedIn(locks, s.past.commits[i].epoch, s.past.commits[i].round, s.past.commits[i].block);
    }
  }

  lemma RecordInvPreCommit(t: Texts, s: State, from: Peer, v: Vote)
    requires RecordInv(t, s)
    ensures RecordInv(t, OnPreCommit(s, from, v))
  {
    var r := OnPreCommit(s, from, v);
    var unrecorded := r.(past := s.past);
    assert KeepsMarks(s, unrecorded);
    RecordInvQuiet(t, s, unrecorded);
    if s.prop.step == Precommit && Completes(s.prop, from, v) {
      ScheduleAdded(t, unrecorded, CommittingSchedule(s), s.prop.sbDone);
    }
  }

  lemma ScheduleAdded(t: Texts, s: State, q: seq<nat>, before: bool)
    requires RecordInv(t, s) && s.prop.sbDone && !before
    requires ScheduleInv(s.(prop := s.prop.(sbDone := before)))
    requires q == s.past.scheduled || q == s.past.scheduled + [s.past.epoch]
    ensures RecordInv(t, s.(past := s.past.(scheduled := q)))
  {
  }

  lemma RecordInvBlock(t: Texts, s: State, from: Peer, round: nat, cid: Text)
    requires RoundInv(t, s) && RecordInv(t, s)
    ensures RecordInv(t, OnBlock(t, s, from, round, cid))
  {
    if BlockAccepted(t, s, from, round, cid) {
      CommitAdded(t, s, OnBlock(t, s, from, round, cid), CommitOf(s));
    }
  }

  lemma CommitAdded(t: Texts, s: State, s': State, c: Commit)
    requires RecordInv(t, s) && s'.prop == s.prop && s'.past == s.past.(commits := s.past.commits + [c])
      && Vetted(s.past, c.block)
    requires c.block != Undef ==> CommitJustified(t, c) && LockedIn(s.past.locks, c.epoch, c.round, c.block)
    ensures RecordInv(t, s')
  {
  }

  lemma RecordInvBroadcast(t: Texts, s: State, sent: bool)
    requires SoundText(t) && RoundInv(t, s) && RecordInv(t, s) && s.timers.pending > 0
    ensures RecordInv(t, OnBroadcast(t, s, sent))
  {
    var x := s.(timers := s.timers.(pending := s.timers.pending - 1));
    var m := BlockMsg(s.prop.height, s.prop.lockedRound, t.str(s.prop.lockedValue));
    var q := x.(past := Logged(x, m, true));
    BroadcastSent(t, x, m);
    if sent {
      RecordInvBlock(t, q, s.self, m.round, m.cid);
    }
  }

  lemma BroadcastSent(t: Texts, s: State, m: Msg)
    requires SoundText(t) && RecordInv(t, s)
    requires m == BlockMsg(s.prop.height, s.prop.lockedRound, t.str(s.prop.lockedValue))
    ensures RecordInv(t, s.(past := Logged(s, m, true)))
  {
    var q := s.(past := Logged(s, m, true));
    assert BroadcastLocked(t, s.past.locks, Sent(s.past.epoch, m));
    assert BroadcastInv(t, q);
  }

  lemma RecordInvReceive(t: Texts, s: State, from: Peer, msg: Msg, valid: bool, sent: bool)
    requires SoundText(t) && RoundInv(t, s) && RecordInv(t, s)
    ensures RecordInv(t, OnReceive(t, s, from, msg, valid, sent))
  {
    match msg
    case NewRound(h, r) => RecordInvNewRound(t, s, from, h, r);
    case Proposal(_, _, x) => RecordInvProposal(t, s, from, x, valid, sent);
    case VoteMsg(v) =>
      if Counts(t, s, from, v) {
        match v.kind
        case PreVote => RecordInvPreVote(t, s, from, v, sent);
        case PreCommit => RecordInvPreCommit(t, s, from, v);
        case ProposalVote =>
      }
    case BlockMsg(_, r, c) => RecordInvBlock(t, s, from, r, c);
  }

  lemma RecordInvNext(t: Texts, s: State, e: Event)
    requires SoundText(t) && RoundInv(t, s) && RecordInv(t, s)
    ensures RecordInv(t, Next(t, s, e))
  {
    if Enabled(s, e) {
      match e
      case Tick(p, env) => RecordInvStart(t, s.(tip := s.tip.(proposer := p)), false, env);
      case Receive(from, msg, valid, sent) => RecordInvReceive(t, s, from, msg, valid, sent);
      case PrecommitTimeout(env) => RecordInvStart(t, s.(timers := s.timers.(precommit := false)), true, env);
      case _ => RecordInvTimers(t, s, e);
    }
  }

  lemma RecordInvTimers(t: Texts, s: State, e: Event)
    requires SoundText(t) && RoundInv(t, s) && RecordInv(t, s) && Enabled(s, e)
    requires e.ProposeTimeout? || e.PrevoteTimeout? || e.BlockTimeout? || e.Broadcast?
    ensures RecordInv(t, Next(t, s, e))
  {
    match e
    case ProposeTimeout(sent) => RecordInvProposeTimeout(t, s, sent);
    case PrevoteTimeout(sent) => RecordInvPrevoteTimeout(t, s, sent);
    case BlockTimeout =>
    case Broadcast(sent) => RecordInvBroadcast(t, s, sent);
  }
}
