/** Many nodes.  The correct ones run the round machine; anybody else may send anything.  A message
    that is taken in as coming from a correct node has been sent by it, since messages are signed. */
module Network {
  import opened Objects
  import opened Rounds
  import opened RoundSafety
  import opened RoundHistory
  import opened RoundRecords
  import opened RoundTheorems

  /** The correct nodes. */
  type Net = map<Peer, State>

  datatype NetStep = NetStep(at: Peer, event: Event)

  ghost predicate Said(net: Net, p: Peer, m: Msg) {
    p in net ==> exists i :: 0 <= i < |net[p].past.log| && net[p].past.log[i].msg == m
  }

  ghost predicate Possible(net: Net, st: NetStep) {
    st.at in net && (st.event.Receive? ==> Said(net, st.event.from, st.event.msg))
  }

  function NetNext(t: Texts, net: Net, st: NetStep): Net
    requires st.at in net
  {
    net[st.at := Next(t, net[st.at], st.event)]
  }

  ghost predicate NetInitial(t: Texts, net: Net) {
    forall p :: p in net ==> Initial(t, net[p]) && net[p].self == p
  }

  /** The networks that possible steps lead to. */
  ghost predicate IsRun(t: Texts, run: seq<Net>, steps: seq<NetStep>) {
    && |run| == |steps| + 1 && NetInitial(t, run[0])
    && forall i :: 0 <= i < |steps| ==> StepAt(t, run, steps, i)
  }

  ghost predicate StepAt(t: Texts, run: seq<Net>, steps: seq<NetStep>, i: nat) {
    && i < |steps| && i + 1 < |run|
    && Possible(run[i], steps[i]) && run[i + 1] == NetNext(t, run[i], steps[i])
  }

  // --------------------------------------------------------------------------------------------
  // What every network run keeps
  // --------------------------------------------------------------------------------------------

  ghost predicate AllSaid(net: Net, votes: map<Peer, Vote>) {
    forall p :: p in votes ==> Said(net, p, VoteMsg(votes[p]))
  }

  /** Every recorded vote of a correct node was sent by it. */
  ghost predicate VotesSaid(net: Net, s: State) {
    && AllSaid(net, s.prop.preVotes) && AllSaid(net, s.prop.preCommits)
    && (forall i :: 0 <= i < |s.past.locks| ==> AllSaid(net, s.past.locks[i].preVotes))
    && (forall i :: 0 <= i < |s.past.commits| ==>
          AllSaid(net, s.past.commits[i].preVotes) && AllSaid(net, s.past.commits[i].preCommits))
  }

  ghost predicate SentIn(log: seq<Sent>, g: nat, round: nat, cid: Text) {
    exists i :: 0 <= i < |log| && log[i].epoch == g && log[i].msg.BlockMsg? && log[i].msg.round == round &&
      log[i].msg.cid == cid
  }

  /** In its epoch g the leader locked what the commit is of and sent the block message for it; the
      leader's own commit is of that epoch itself. */
  ghost predicate Traces(t: Texts, leader: State, who: Peer, c: Commit, g: nat) {
    && LockedIn(leader.past.locks, g, c.round, c.block)
    && (SentIn(leader.past.log, g, c.round, t.str(c.block)) || (who == c.proposer && g == c.epoch))
  }

  ghost predicate Traced(t: Texts, leader: State, who: Peer, c: Commit) {
    exists g :: Traces(t, leader, who, c, g)
  }

  /** Every commit under a correct proposer goes back to one of that proposer's epochs. */
  ghost predicate CommitsTraced(t: Texts, net: Net, s: State) {
    forall i :: 0 <= i < |s.past.commits| && s.past.commits[i].block != Undef && s.past.commits[i].proposer in net ==>
      Traced(t, net[s.past.commits[i].proposer], s.self, s.past.commits[i])
  }

  ghost predicate NodeOk(t: Texts, net: Net, p: Peer)
    requires p in net
  {
    net[p].self == p && Inv(t, net[p]) && VotesSaid(net, net[p]) && CommitsTraced(t, net, net[p])
  }

  ghost predicate NetInv(t: Texts, net: Net) {
    forall p :: p in net ==> NodeOk(t, net, p)
  }

  // --------------------------------------------------------------------------------------------
  // One node's step
  // --------------------------------------------------------------------------------------------

  ghost predicate Grows(h: History, h': History) {
    h.log <= h'.log && h.locks <= h'.locks
  }

  lemma PastGrows(t: Texts, s: State, e: Event)
    ensures Grows(s.past, Next(t, s, e).past) && Next(t, s, e).self == s.self
  {
    match e
    case Tick(p, env) =>
      StartFrame(t, s.(tip := s.tip.(proposer := p)), false, env);
      StartLogGrows(t, s.(tip := s.tip.(proposer := p)), false, env);
    case PrecommitTimeout(env) =>
      StartFrame(t, s.(timers := s.timers.(precommit := false)), true, env);
      StartLogGrows(t, s.(timers := s.timers.(precommit := false)), true, env);
    case Receive(from, msg, valid, sent) => ReceiveGrows(t, s, from, msg, valid, sent);
    case _ =>
  }

  lemma StartLogGrows(t: Texts, s: State, inc: bool, env: RoundEnv)
    ensures s.past.log <= StartRound(t, s, inc, env).past.log
  {
  }

  lemma ReceiveGrows(t: Texts, s: State, from: Peer, msg: Msg, valid: bool, sent: bool)
    ensures Grows(s.past, OnReceive(t, s, from, msg, valid, sent).past)
    ensures OnReceive(t, s, from, msg, valid, sent).self == s.self
  {
    if msg.VoteMsg? && msg.vote.kind == PreCommit {
      PreCommitFrame(s, from, msg.vote);
    }
  }

  /** A vote table after a step holds old votes and at most the vote just received. */
  ghost predicate NewVotes(old': map<Peer, Vote>, new': map<Peer, Vote>, e: Event) {
    forall p :: p in new' ==>
      (p in old' && old'[p] == new'[p]) || (e.Receive? && e.from == p && e.msg == VoteMsg(new'[p]))
  }

  /** A lock just taken holds the prevote table. */
  ghost predicate LockFromTable(s: State, r: State) {
    || r.past.locks == s.past.locks
    || (|r.past.locks| == |s.past.locks| + 1 && r.past.locks[|s.past.locks|].preVotes == r.prop.preVotes)
  }

  ghost predicate VoteOrigin(s: State, e: Event, r: State) {
    && NewVotes(s.prop.preVotes, r.prop.preVotes, e) && NewVotes(s.prop.preCommits, r.prop.preCommits, e)
    && LockFromTable(s, r)
  }

  ghost predicate SameTables(s: State, r: State) {
    r.prop.preVotes == s.prop.preVotes && r.prop.preCommits == s.prop.preCommits && r.past.locks == s.past.locks
  }

  ghost predicate NoTables(s: State, r: State) {
    r.prop.preVotes == map[] && r.prop.preCommits == map[] && r.past.locks == s.past.locks
  }

  lemma QuietOrigin(s: State, e: Event, r: State)
    requires SameTables(s, r) || NoTables(s, r)
    ensures VoteOrigin(s, e, r)
  {
  }

  lemma TimeoutTables(t: Texts, s: State, sent: bool)
    ensures SameTables(s, OnProposeTimeout(s, sent)) && SameTables(s, OnPrevoteTimeout(s, sent))
    ensures s.timers.pending > 0 ==> SameTables(s, OnBroadcast(t, s, sent))
  {
  }

  lemma StartTables(t: Texts, s: State, inc: bool, env: RoundEnv)
    ensures NoTables(s, StartRound(t, s, inc, env))
  {
    StartFrame(t, s, inc, env);
  }

  lemma VotesFrom(t: Texts, s: State, e: Event)
    ensures VoteOrigin(s, e, Next(t, s, e))
  {
    var r := Next(t, s, e);
    if e.Receive? {
      VotesFromReceive(t, s, e.from, e.msg, e.valid, e.sent);
    } else {
      QuietTables(t, s, e);
      QuietOrigin(s, e, r);
    }
  }

  lemma QuietTables(t: Texts, s: State, e: Event)
    requires !e.Receive?
    ensures SameTables(s, Next(t, s, e)) || NoTables(s, Next(t, s, e))
  {
    match e
    case Tick(p, env) => StartTables(t, s.(tip := s.tip.(proposer := p)), false, env);
    case PrecommitTimeout(env) => StartTables(t, s.(timers := s.timers.(precommit := false)), true, env);
    case ProposeTimeout(sent) => TimeoutTables(t, s, sent);
    case PrevoteTimeout(sent) => TimeoutTables(t, s, sent);
    case Broadcast(sent) => TimeoutTables(t, s, sent);
    case BlockTimeout =>
  }

  lemma VotesFromReceive(t: Texts, s: State, from: Peer, msg: Msg, valid: bool, sent: bool)
    ensures VoteOrigin(s, Receive(from, msg, valid, sent), OnReceive(t, s, from, msg, valid, sent))
  {
    var e, r := Receive(from, msg, valid, sent), OnReceive(t, s, from, msg, valid, sent);
    match msg
    case VoteMsg(v) => VoteTables(t, s, from, v, valid, sent);
    case NewRound(h, n) =>
      assert SameTables(s, r) || NoTables(s, r);
      QuietOrigin(s, e, r);
    case Proposal(_, _, x) =>
      assert SameTables(s, OnProposal(t, s, from, x, valid, sent));
      QuietOrigin(s, e, r);
    case BlockMsg(_, n, c) =>
      assert SameTables(s, OnBlock(t, s, from, n, c));
      QuietOrigin(s, e, r);
  }

  lemma VoteTables(t: Texts, s: State, from: Peer, v: Vote, valid: bool, sent: bool)
    ensures VoteOrigin(s, Receive(from, VoteMsg(v), valid, sent), OnVote(t, s, from, v, sent))
  {
    var r := OnVote(t, s, from, v, sent);
    if r == s {
      QuietOrigin(s, Receive(from, VoteMsg(v), valid, sent), r);
    } else {
      match v.kind
      case PreVote => PreVoteTables(t, s, from, v, sent);
      case PreCommit => PreCommitTables(s, from, v);
      case ProposalVote =>
    }
  }

  lemma PreVoteTables(t: Texts, s: State, from: Peer, v: Vote, sent: bool)
    ensures var r := OnPreVote(t, s, from, v, sent);
            && r.prop.preCommits == s.prop.preCommits && LockFromTable(s, r)
            && (r.prop.preVotes == s.prop.preVotes || r.prop.preVotes == s.prop.preVotes[from := v])
  {
    if s.prop.step == Prevote && Locks(s.prop, from, v) {
      assert OnPreVote(t, s, from, v, sent).prop == Locked(WithPreVote(s.prop, from, v));
    }
  }

  lemma PreCommitTables(s: State, from: Peer, v: Vote)
    ensures var r := OnPreCommit(s, from, v);
            && r.prop.preVotes == s.prop.preVotes && r.past.locks == s.past.locks
            && (r.prop.preCommits == s.prop.preCommits || r.prop.preCommits == s.prop.preCommits[from := v])
  {
    if s.prop.step == Precommit && Completes(s.prop, from, v) {
      assert OnPreCommit(s, from, v).prop == WithPreCommit(s.prop, from, v).(step := Committing, sbDone := true);
    }
  }

  /** A commit comes from the proposer's block message, or is the proposer's own. */
  lemma CommitCause(t: Texts, s: State, e: Event)
    ensures var r := Next(t, s, e);
            r.past.commits != s.past.commits ==>
              && r.past.commits == s.past.commits + [CommitOf(s)]
              && (s.self == s.tip.proposer ||
                  (e.Receive? && e.from == s.tip.proposer && e.msg.BlockMsg? &&
                   e.msg.cid == t.str(s.prop.lockedValue) && e.msg.round == s.prop.lockedRound))
  {
    TipStep(t, s, e);
    match e
    case Tick(p, env) => StartFrame(t, s.(tip := s.tip.(proposer := p)), false, env);
    case PrecommitTimeout(env) => StartFrame(t, s.(timers := s.timers.(precommit := false)), true, env);
    case Receive(from, msg, valid, sent) => ReceiveCause(t, s, from, msg, valid, sent);
    case _ =>
  }

  lemma ReceiveCause(t: Texts, s: State, from: Peer, msg: Msg, valid: bool, sent: bool)
    ensures var r := OnReceive(t, s, from, msg, valid, sent);
            r.past.commits != s.past.commits ==>
              from == s.tip.proposer && msg.BlockMsg? && msg.cid == t.str(s.prop.lockedValue)
                && msg.round == s.prop.lockedRound
  {
  }

  // --------------------------------------------------------------------------------------------
  // The network's step
  // --------------------------------------------------------------------------------------------

  lemma SaidGrows(t: Texts, net: Net, st: NetStep, p: Peer, m: Msg)
    requires st.at in net && Said(net, p, m)
    ensures Said(NetNext(t, net, st), p, m)
  {
    if p in net {
      PastGrows(t, net[st.at], st.event);
      var i :| 0 <= i < |net[p].past.log| && net[p].past.log[i].msg == m;
      assert NetNext(t, net, st)[p].past.log[i] == net[p].past.log[i];
    }
  }

  lemma AllSaidGrows(t: Texts, net: Net, st: NetStep, votes: map<Peer, Vote>)
    requires st.at in net && AllSaid(net, votes)
    ensures AllSaid(NetNext(t, net, st), votes)
  {
    forall p | p in votes ensures Said(NetNext(t, net, st), p, VoteMsg(votes[p])) {
      SaidGrows(t, net, st, p, VoteMsg(votes[p]));
    }
  }

  lemma VotesSaidGrows(t: Texts, net: Net, st: NetStep, s: State)
    requires st.at in net && VotesSaid(net, s)
    ensures VotesSaid(NetNext(t, net, st), s)
  {
    AllSaidGrows(t, net, st, s.prop.preVotes);
    AllSaidGrows(t, net, st, s.prop.preCommits);
    forall i | 0 <= i < |s.past.locks| ensures AllSaid(NetNext(t, net, st), s.past.locks[i].preVotes) {
      AllSaidGrows(t, net, st, s.past.locks[i].preVotes);
    }
    forall i | 0 <= i < |s.past.commits|
      ensures AllSaid(NetNext(t, net, st), s.past.commits[i].preVotes)
        && AllSaid(NetNext(t, net, st), s.past.commits[i].preCommits)
    {
      AllSaidGrows(t, net, st, s.past.commits[i].preVotes);
      AllSaidGrows(t, net, st, s.past.commits[i].preCommits);
    }
  }

  lemma CommitsTracedGrows(t: Texts, net: Net, st: NetStep, s: State)
    requires st.at in net && CommitsTraced(t, net, s)
    ensures CommitsTraced(t, NetNext(t, net, st), s)
  {
    var net' := NetNext(t, net, st);
    forall i | 0 <= i < |s.past.commits| && s.past.commits[i].block != Undef && s.past.commits[i].proposer in net'
      ensures Traced(t, net'[s.past.commits[i].proposer], s.self, s.past.commits[i])
    {
      TracedGrows(t, net, st, s.self, s.past.commits[i]);
    }
  }

  lemma TableSaid(t: Texts, net: Net, st: NetStep, votes: map<Peer, Vote>, votes': map<Peer, Vote>)
    requires Possible(net, st) && AllSaid(net, votes) && NewVotes(votes, votes', st.event)
    ensures AllSaid(NetNext(t, net, st), votes')
  {
    forall p | p in votes' ensures Said(NetNext(t, net, st), p, VoteMsg(votes'[p])) {
      SaidGrows(t, net, st, p, VoteMsg(votes'[p]));
    }
  }

  lemma StepVotesSaid(t: Texts, net: Net, st: NetStep)
    requires Possible(net, st) && VotesSaid(net, net[st.at])
    ensures VotesSaid(NetNext(t, net, st), NetNext(t, net, st)[st.at])
  {
    var net' := NetNext(t, net, st);
    var s, r := net[st.at], net'[st.at];
    VotesFrom(t, s, st.event);
    PastGrows(t, s, st.event);
    CommitCause(t, s, st.event);
    VotesSaidGrows(t, net, st, s);
    TableSaid(t, net, st, s.prop.preVotes, r.prop.preVotes);
    TableSaid(t, net, st, s.prop.preCommits, r.prop.preCommits);
    VotesSaidAfter(net', s, r);
  }

  lemma VotesSaidAfter(net: Net, s: State, r: State)
    requires VotesSaid(net, s) && AllSaid(net, r.prop.preVotes) && AllSaid(net, r.prop.preCommits)
    requires Grows(s.past, r.past) && LockFromTable(s, r)
    requires r.past.commits == s.past.commits || r.past.commits == s.past.commits + [CommitOf(s)]
    ensures VotesSaid(net, r)
  {
    forall i | 0 <= i < |r.past.locks| ensures AllSaid(net, r.past.locks[i].preVotes) {
      if i < |s.past.locks| {
        assert r.past.locks[i] == s.past.locks[i];
      }
    }
  }

  /** A new commit under another correct proposer names what that proposer broadcast in one of its
      epochs, and so what it locked there. */
  lemma NewCommitTraced(t: Texts, net: Net, st: NetStep)
    requires SoundText(t) && Possible(net, st) && NetInv(t, net)
    requires var s, r := net[st.at], NetNext(t, net, st)[st.at];
             r.past.commits == s.past.commits + [CommitOf(s)] && s.prop.lockedValue != Undef && s.tip.proposer in net
    ensures var s := net[st.at];
            Traced(t, net[s.tip.proposer], s.self, CommitOf(s))
  {
    var s := net[st.at];
    var leader := net[s.tip.proposer];
    CommitCause(t, s, st.event);
    assert NodeOk(t, net, st.at) && NodeOk(t, net, s.tip.proposer);
    if s.self == s.tip.proposer {
      OwnTraced(t, s);
    } else {
      var i :| 0 <= i < |leader.past.log| && leader.past.log[i].msg == st.event.msg;
      MessageTraced(t, leader, s, i);
    }
  }

  lemma OwnTraced(t: Texts, s: State)
    requires RecordInv(t, s) && s.prop.lockedValue != Undef && s.self == s.tip.proposer
    ensures Traced(t, s, s.self, CommitOf(s))
  {
    assert Traces(t, s, s.self, CommitOf(s), s.past.epoch);
  }

  lemma MessageTraced(t: Texts, leader: State, s: State, i: nat)
    requires SoundText(t) && RecordInv(t, leader) && i < |leader.past.log| && s.prop.lockedValue != Undef
    requires var m := leader.past.log[i].msg;
             m.BlockMsg? && m.cid == t.str(s.prop.lockedValue) && m.round == s.prop.lockedRound
    ensures Traced(t, leader, s.self, CommitOf(s))
  {
    var e := leader.past.log[i];
    assert BroadcastLocked(t, leader.past.locks, e);
    assert SentIn(leader.past.log, e.epoch, s.prop.lockedRound, t.str(s.prop.lockedValue));
    assert Traces(t, leader, s.self, CommitOf(s), e.epoch);
  }

  lemma TracedGrows(t: Texts, net: Net, st: NetStep, who: Peer, c: Commit)
    requires st.at in net && c.proposer in net && Traced(t, net[c.proposer], who, c)
    ensures Traced(t, NetNext(t, net, st)[c.proposer], who, c)
  {
    PastGrows(t, net[st.at], st.event);
    TracedLonger(t, net[c.proposer], NetNext(t, net, st)[c.proposer], who, c);
  }

  lemma TracedLonger(t: Texts, s: State, r: State, who: Peer, c: Commit)
    requires Grows(s.past, r.past) && Traced(t, s, who, c)
    ensures Traced(t, r, who, c)
  {
    var g :| Traces(t, s, who, c, g);
    var j :| 0 <= j < |s.past.locks| && s.past.locks[j].epoch == g && s.past.locks[j].round == c.round &&
      s.past.locks[j].block == c.block;
    assert r.past.locks[j] == s.past.locks[j];
    if SentIn(s.past.log, g, c.round, t.str(c.block)) {
      var i :| 0 <= i < |s.past.log| && s.past.log[i].epoch == g && s.past.log[i].msg.BlockMsg? &&
        s.past.log[i].msg.round == c.round && s.past.log[i].msg.cid == t.str(c.block);
      assert r.past.log[i] == s.past.log[i];
    }
    assert Traces(t, r, who, c, g);
  }

  lemma CommitsTracedAfter(t: Texts, net: Net, s: State, r: State)
    requires CommitsTraced(t, net, s) && r.self == s.self
    requires r.past.commits == s.past.commits || r.past.commits == s.past.commits + [CommitOf(s)]
    requires var c := CommitOf(s);
             r.past.commits != s.past.commits && c.block != Undef && c.proposer in net ==>
               Traced(t, net[c.proposer], s.self, c)
    ensures CommitsTraced(t, net, r)
  {
  }

  lemma StepCommitsTraced(t: Texts, net: Net, st: NetStep)
    requires SoundText(t) && Possible(net, st) && NetInv(t, net)
    ensures CommitsTraced(t, NetNext(t, net, st), NetNext(t, net, st)[st.at])
  {
    var net' := NetNext(t, net, st);
    var s, r := net[st.at], net'[st.at];
    assert NodeOk(t, net, st.at);
    CommitCause(t, s, st.event);
    PastGrows(t, s, st.event);
    CommitsTracedGrows(t, net, st, s);
    if r.past.commits != s.past.commits && s.prop.lockedValue != Undef && s.tip.proposer in net {
      NewCommitTraced(t, net, st);
      TracedGrows(t, net, st, s.self, CommitOf(s));
    }
    CommitsTracedAfter(t, net', s, r);
  }

  lemma NodeOkStep(t: Texts, net: Net, st: NetStep)
    requires SoundText(t) && Possible(net, st) && NetInv(t, net)
    ensures NodeOk(t, NetNext(t, net, st), st.at)
  {
    assert NodeOk(t, net, st.at);
    InvNext(t, net[st.at], st.event);
    PastGrows(t, net[st.at], st.event);
    StepVotesSaid(t, net, st);
    StepCommitsTraced(t, net, st);
  }

  lemma NodeOkOther(t: Texts, net: Net, st: NetStep, p: Peer)
    requires Possible(net, st) && p in net && p != st.at && NodeOk(t, net, p)
    ensures NodeOk(t, NetNext(t, net, st), p)
  {
    VotesSaidGrows(t, net, st, net[p]);
    CommitsTracedGrows(t, net, st, net[p]);
  }

  lemma NetInvNext(t: Texts, net: Net, st: NetStep)
    requires SoundText(t) && Possible(net, st) && NetInv(t, net)
    ensures NetInv(t, NetNext(t, net, st))
  {
    var net' := NetNext(t, net, st);
    forall p | p in net' ensures NodeOk(t, net', p) {
      if p == st.at {
        NodeOkStep(t, net, st);
      } else {
        NodeOkOther(t, net, st, p);
      }
    }
  }

  lemma NetInvInitial(t: Texts, net: Net)
    requires SoundText(t) && NetInitial(t, net)
    ensures NetInv(t, net)
  {
    forall p | p in net ensures NodeOk(t, net, p) {
      InvInitial(t, net[p]);
      NoVotesInitially(t, net[p]);
    }
  }

  lemma NoVotesInitially(t: Texts, s: State)
    requires Initial(t, s)
    ensures s.prop.preVotes == map[] && s.prop.preCommits == map[] && s.past.locks == [] && s.past.commits == []
  {
    var b, proposer, env :| IsBoot(b) && s == OnTick(t, b, proposer, env);
    StartFrame(t, b.(tip := b.tip.(proposer := proposer)), false, env);
  }

  lemma StepOf(t: Texts, run: seq<Net>, steps: seq<NetStep>, n: nat)
    requires IsRun(t, run, steps) && n < |steps|
    ensures Possible(run[n], steps[n]) && run[n + 1] == NetNext(t, run[n], steps[n])
  {
    assert StepAt(t, run, steps, n);
  }

  /** A set of networks that possible steps do not leave. */
  ghost predicate Closed(t: Texts, within: Net -> bool) {
    forall net, st :: within(net) && Possible(net, st) ==> within(NetNext(t, net, st))
  }

  lemma {:induction false} RunStaysWithin(t: Texts, run: seq<Net>, steps: seq<NetStep>, within: Net -> bool, n: nat)
    requires IsRun(t, run, steps) && Closed(t, within) && within(run[0]) && n <= |steps|
    ensures within(run[n])
  {
    if n > 0 {
      RunStaysWithin(t, run, steps, within, n - 1);
      StepOf(t, run, steps, n - 1);
    }
  }

  lemma NetInvClosed(t: Texts)
    requires SoundText(t)
    ensures Closed(t, net => NetInv(t, net))
  {
    forall net, st | NetInv(t, net) && Possible(net, st) ensures NetInv(t, NetNext(t, net, st)) {
      NetInvNext(t, net, st);
    }
  }

  lemma NetInvRun(t: Texts, run: seq<Net>, steps: seq<NetStep>, n: nat)
    requires SoundText(t) && IsRun(t, run, steps) && n <= |steps|
    ensures NetInv(t, run[n])
  {
    var within := (net: Net) => NetInv(t, net);
    NetInvInitial(t, run[0]);
    NetInvClosed(t);
    RunStaysWithin(t, run, steps, within, n);
  }
}
