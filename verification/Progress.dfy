/** What nodes achieve: the events that make a follower or a leader commit, in every height and round,
    and what happens in a round in which nothing is heard. */
module Progress {
  import opened Bytes
  import opened Objects
  import opened Rounds

  lemma RunOneMore(t: Texts, s: State, es: seq<Event>, e: Event)
    ensures Run(t, s, es + [e]) == Next(t, Run(t, s, es), e)
  {
    assert (es + [e])[..|es + [e]| - 1] == es;
  }

  lemma RunTwo(t: Texts, s: State, a: Event, b: Event)
    ensures Run(t, s, [a, b]) == Next(t, Next(t, s, a), b)
  {
    RunOneMore(t, s, [], a);
    RunOneMore(t, s, [a], b);
    assert [] + [a] == [a] && [a] + [b] == [a, b];
  }

  lemma RunThree(t: Texts, s: State, a: Event, b: Event, c: Event)
    ensures Run(t, s, [a, b, c]) == Next(t, Next(t, Next(t, s, a), b), c)
  {
    RunTwo(t, s, a, b);
    RunOneMore(t, s, [a, b], c);
    assert [a, b] + [c] == [a, b, c];
  }

  lemma {:induction false} RunAppend(t: Texts, s: State, es: seq<Event>, fs: seq<Event>)
    ensures Run(t, s, es + fs) == Run(t, Run(t, s, es), fs)
  {
    if fs == [] {
      assert es + fs == es;
    } else {
      var n := |fs| - 1;
      var a, b := fs[..n], fs[n];
      assert fs == a + [b] && es + fs == (es + a) + [b];
      RunAppend(t, s, es, a);
      RunOneMore(t, s, es + a, b);
      RunOneMore(t, Run(t, s, es), a, b);
    }
  }

  // --------------------------------------------------------------------------------------------
  // Votes
  // --------------------------------------------------------------------------------------------

  function Ballot(t: Texts, from: Peer, kind: VoteKind, h: nat, n: nat, c: Cid): Vote {
    Vote(kind, h, n, t.str(c), from)
  }

  function ReceiveVote(t: Texts, from: Peer, kind: VoteKind, h: nat, n: nat, c: Cid): Event {
    Receive(from, VoteMsg(Ballot(t, from, kind, h, n, c)), false, true)
  }

  /** One vote from each of these voters. */
  function Votes(t: Texts, voters: seq<Peer>, kind: VoteKind, h: nat, n: nat, c: Cid): seq<Event> {
    seq(|voters|, i requires 0 <= i < |voters| => ReceiveVote(t, voters[i], kind, h, n, c))
  }

  /** The table that holds them. */
  function Tally(t: Texts, voters: seq<Peer>, kind: VoteKind, h: nat, n: nat, c: Cid): (m: map<Peer, Vote>)
    ensures m.Keys == Elements(voters)
  {
    map p | p in voters :: Ballot(t, p, kind, h, n, c)
  }

  lemma VotesOneMore(t: Texts, voters: seq<Peer>, kind: VoteKind, h: nat, n: nat, c: Cid)
    requires voters != [] && NoDuplicates(voters)
    ensures var m := |voters| - 1;
            var v := Ballot(t, voters[m], kind, h, n, c);
            && Votes(t, voters, kind, h, n, c) ==
               Votes(t, voters[..m], kind, h, n, c) + [Receive(voters[m], VoteMsg(v), false, true)]
            && Tally(t, voters, kind, h, n, c) == Tally(t, voters[..m], kind, h, n, c)[voters[m] := v]
            && |Tally(t, voters, kind, h, n, c)| == |voters| && NoDuplicates(voters[..m])
  {
    CountedOnce(voters);
    assert |Tally(t, voters, kind, h, n, c)| == |Tally(t, voters, kind, h, n, c).Keys|;
  }

  /** The voters may vote: none is the proposer, and none is listed twice. */
  ghost predicate MayVote(s: State, voters: seq<Peer>) {
    NoDuplicates(voters) && s.tip.proposer !in voters
  }

  /** The node's own vote, as it goes out if the node can sign. */
  function Voiced(s: State, kind: VoteKind, x: Text): seq<Sent> {
    if s.canSign then [Sent(s.past.epoch, VoteMsg(Vote(kind, s.prop.height, s.prop.round, x, s.self)))] else []
  }

  /** A prevote for what is proposed is recorded.  If it makes more than f, the node locks the block,
      precommits it and waits for precommits; a leader waits for them from the first prevote on. */
  lemma OnePreVote(t: Texts, s: State, voter: Peer)
    requires s.tip.proposer != voter && s.prop.step == Prevote
    ensures var p := s.prop;
            var votes := p.preVotes[voter := Ballot(t, voter, PreVote, p.height, p.round, p.block)];
            var r := Next(t, s, ReceiveVote(t, voter, PreVote, p.height, p.round, p.block));
            if |votes| > p.f && !p.pcDone then
              && r.prop == p.(preVotes := votes, step := Precommit, lockedValue := p.block, lockedRound := p.round,
                              pcDone := true)
              && r == s.(prop := r.prop, timers := s.timers.(prevote := false, precommit := true), past := r.past)
              && r.past == s.past.(log := s.past.log + Voiced(s, PreCommit, t.str(p.block)), locks := r.past.locks)
              && r.past.locks == s.past.locks +
                   [Lock(s.past.epoch, s.tip.proposer, p.height, p.round, p.block, p.f, votes)]
            else
              r == s.(prop := p.(preVotes := votes),
                      timers := s.timers.(precommit := s.timers.precommit || p.amProposer))
  {
  }

  /** As long as no more than f have voted, votes are only recorded. */
  lemma {:induction false} PreVotesRecorded(t: Texts, s: State, voters: seq<Peer>)
    requires MayVote(s, voters) && |voters| <= s.prop.f && s.prop.step == Prevote && s.prop.preVotes == map[]
    ensures var p := s.prop;
            Run(t, s, Votes(t, voters, PreVote, p.height, p.round, p.block)) ==
              s.(prop := p.(preVotes := Tally(t, voters, PreVote, p.height, p.round, p.block)),
                 timers := s.timers.(precommit := s.timers.precommit || (p.amProposer && voters != [])))
  {
    var h, n, c, m := s.prop.height, s.prop.round, s.prop.block, |voters| - 1;
    if voters == [] {
      assert Votes(t, voters, PreVote, h, n, c) == [] && Tally(t, voters, PreVote, h, n, c) == map[];
    } else {
      VotesOneMore(t, voters, PreVote, h, n, c);
      PreVotesRecorded(t, s, voters[..m]);
      var before := Votes(t, voters[..m], PreVote, h, n, c);
      RunOneMore(t, s, before, ReceiveVote(t, voters[m], PreVote, h, n, c));
      OnePreVote(t, Run(t, s, before), voters[m]);
    }
  }

  /** The vote of one more locks. */
  lemma PreVotesLock(t: Texts, s: State, voters: seq<Peer>)
    requires MayVote(s, voters) && |voters| == s.prop.f + 1
    requires s.prop.step == Prevote && s.prop.preVotes == map[] && !s.prop.pcDone
    ensures var p := s.prop;
            var r := Run(t, s, Votes(t, voters, PreVote, p.height, p.round, p.block));
            && r.prop == p.(preVotes := Tally(t, voters, PreVote, p.height, p.round, p.block), step := Precommit,
                            lockedValue := p.block, lockedRound := p.round, pcDone := true)
            && r == s.(prop := r.prop, timers := s.timers.(prevote := false, precommit := true), past := r.past)
            && r.past == s.past.(log := s.past.log + Voiced(s, PreCommit, t.str(p.block)), locks := r.past.locks)
  {
    var h, n, c, m := s.prop.height, s.prop.round, s.prop.block, |voters| - 1;
    VotesOneMore(t, voters, PreVote, h, n, c);
    PreVotesRecorded(t, s, voters[..m]);
    var before := Votes(t, voters[..m], PreVote, h, n, c);
    RunOneMore(t, s, before, ReceiveVote(t, voters[m], PreVote, h, n, c));
    OnePreVote(t, Run(t, s, before), voters[m]);
  }

  /** A precommit for what is proposed is recorded.  If it makes more than f, the node waits for the
      block message; a leader has it sent after the grace period instead. */
  lemma OnePreCommit(t: Texts, s: State, voter: Peer)
    requires s.tip.proposer != voter && s.prop.step == Precommit
    ensures var p := s.prop;
            var votes := p.preCommits[voter := Ballot(t, voter, PreCommit, p.height, p.round, p.block)];
            var r := Next(t, s, ReceiveVote(t, voter, PreCommit, p.height, p.round, p.block));
            if |votes| > p.f && !p.sbDone then
              && r == s.(prop := p.(preCommits := votes, step := Committing, sbDone := true), timers := r.timers,
                         past := r.past)
              && r.timers == s.timers.(precommit := false, block := s.timers.block || !p.amProposer,
                                       pending := s.timers.pending + if p.amProposer then 1 else 0)
              && r.past == s.past.(scheduled := s.past.scheduled + if p.amProposer then [s.past.epoch] else [])
            else
              r == s.(prop := p.(preCommits := votes),
                      timers := s.timers.(precommit := s.timers.precommit || p.amProposer))
  {
  }

  lemma {:induction false} PreCommitsRecorded(t: Texts, s: State, voters: seq<Peer>)
    requires MayVote(s, voters) && |voters| <= s.prop.f && s.prop.step == Precommit && s.prop.preCommits == map[]
    ensures var p := s.prop;
            Run(t, s, Votes(t, voters, PreCommit, p.height, p.round, p.block)) ==
              s.(prop := p.(preCommits := Tally(t, voters, PreCommit, p.height, p.round, p.block)),
                 timers := s.timers.(precommit := s.timers.precommit || (p.amProposer && voters != [])))
  {
    var h, n, c, m := s.prop.height, s.prop.round, s.prop.block, |voters| - 1;
    if voters == [] {
      assert Votes(t, voters, PreCommit, h, n, c) == [] && Tally(t, voters, PreCommit, h, n, c) == map[];
    } else {
      VotesOneMore(t, voters, PreCommit, h, n, c);
      PreCommitsRecorded(t, s, voters[..m]);
      var before := Votes(t, voters[..m], PreCommit, h, n, c);
      RunOneMore(t, s, before, ReceiveVote(t, voters[m], PreCommit, h, n, c));
      OnePreCommit(t, Run(t, s, before), voters[m]);
    }
  }

  lemma PreCommitsComplete(t: Texts, s: State, voters: seq<Peer>)
    requires MayVote(s, voters) && |voters| == s.prop.f + 1
    requires s.prop.step == Precommit && s.prop.preCommits == map[] && !s.prop.sbDone
    ensures var p := s.prop;
            var r := Run(t, s, Votes(t, voters, PreCommit, p.height, p.round, p.block));
            && r.prop == p.(preCommits := Tally(t, voters, PreCommit, p.height, p.round, p.block), step := Committing,
                            sbDone := true)
            && r == s.(prop := r.prop, timers := r.timers, past := r.past)
            && r.timers == s.timers.(precommit := false, block := s.timers.block || !p.amProposer,
                                     pending := s.timers.pending + if p.amProposer then 1 else 0)
            && r.past == s.past.(scheduled := s.past.scheduled + if p.amProposer then [s.past.epoch] else [])
  {
    var h, n, c, m := s.prop.height, s.prop.round, s.prop.block, |voters| - 1;
    VotesOneMore(t, voters, PreCommit, h, n, c);
    PreCommitsRecorded(t, s, voters[..m]);
    var before := Votes(t, voters[..m], PreCommit, h, n, c);
    RunOneMore(t, s, before, ReceiveVote(t, voters[m], PreCommit, h, n, c));
    OnePreCommit(t, Run(t, s, before), voters[m]);
  }

  /** Both kinds of votes. */
  function BothVotes(t: Texts, voters: seq<Peer>, h: nat, n: nat, c: Cid): seq<Event> {
    Votes(t, voters, PreVote, h, n, c) + Votes(t, voters, PreCommit, h, n, c)
  }

  /** f + 1 prevotes and f + 1 precommits take any node from the prevote step to the block step. */
  lemma VotesComplete(t: Texts, s: State, voters: seq<Peer>)
    requires MayVote(s, voters) && |voters| == s.prop.f + 1 && s.prop.step == Prevote
    requires s.prop.preVotes == map[] && s.prop.preCommits == map[] && !s.prop.pcDone && !s.prop.sbDone
    ensures var p := s.prop;
            var r := Run(t, s, BothVotes(t, voters, p.height, p.round, p.block));
            && r.prop == p.(preVotes := Tally(t, voters, PreVote, p.height, p.round, p.block),
                            preCommits := Tally(t, voters, PreCommit, p.height, p.round, p.block),
                            lockedValue := p.block, lockedRound := p.round, step := Committing,
                            pcDone := true, sbDone := true)
            && r == s.(prop := r.prop, timers := r.timers, past := r.past)
            && r.timers == s.timers.(prevote := false, precommit := false, block := s.timers.block || !p.amProposer,
                                     pending := s.timers.pending + if p.amProposer then 1 else 0)
            && r.past == s.past.(log := s.past.log + Voiced(s, PreCommit, t.str(p.block)), locks := r.past.locks,
                                 scheduled := r.past.scheduled)
  {
    var h, n, c := s.prop.height, s.prop.round, s.prop.block;
    PreVotesLock(t, s, voters);
    var locked := Run(t, s, Votes(t, voters, PreVote, h, n, c));
    PreCommitsComplete(t, locked, voters);
    RunAppend(t, s, Votes(t, voters, PreVote, h, n, c), Votes(t, voters, PreCommit, h, n, c));
  }

  // --------------------------------------------------------------------------------------------
  // A follower
  // --------------------------------------------------------------------------------------------

  /** A node that follows, has accepted the proposal c and has seen no votes. */
  ghost predicate Ready(s: State, proposer: Peer, h: nat, n: nat, c: Cid) {
    && s.tip.proposer == proposer
    && s.prop == Round(false, h, n, Prevote, c, s.prop.f, map[], map[], Undef, 0, true, false, false)
  }

  lemma OneProposal(t: Texts, s: State, proposer: Peer, h: nat, n: nat, c: Cid)
    requires SoundText(t) && c != Undef && s.tip.proposer == proposer && s.prop.step == Propose && !s.prop.pvDone
    ensures var r := Next(t, s, Receive(proposer, Proposal(h, n, t.str(c)), true, true));
            && r.prop == s.prop.(block := c, pvDone := true, step := Prevote)
            && r == s.(prop := r.prop, timers := s.timers.(propose := false, prevote := true), past := r.past)
            && r.past == s.past.(log := s.past.log + Voiced(s, PreVote, t.str(c)), validated := r.past.validated)
  {
  }

  /** A prevote that cannot be published is spent all the same: the node has the block but stays in the
      propose step, with its propose timer stopped and its prevote timer not started, and no vote counts
      for it until the next reset. */
  lemma UnsentPrevote(t: Texts, s: State, proposer: Peer, h: nat, n: nat, x: Text, valid: bool)
    requires s.canSign && s.tip.proposer == proposer && s.prop.step == Propose && !s.prop.pvDone
    ensures var r := Next(t, s, Receive(proposer, Proposal(h, n, x), valid, false));
            && r.prop.step == Propose && r.prop.pvDone && r.past.log == s.past.log
            && r.timers == s.timers.(propose := false)
            && forall from, v, sent :: OnVote(t, r, from, v, sent) == r
  {
  }

  lemma OneBlock(t: Texts, s: State, from: Peer, h: nat)
    requires s.tip.proposer == from && s.prop.step == Committing
    ensures var p := s.prop;
            var r := Next(t, s, Receive(from, BlockMsg(h, p.lockedRound, t.str(p.lockedValue)), false, false));
            && r == s.(tip := Tip(from, p.height, p.lockedValue, s.tip.block), timers := s.timers.(block := false),
                       past := r.past)
            && r.past == s.past.(commits := s.past.commits + [Commit(s.past.epoch, from, p.height, p.lockedRound,
                                   p.lockedValue, p.f, p.preVotes, p.preCommits)])
  {
  }

  /** The votes of both kinds and the proposer's block message. */
  function Ballots(t: Texts, proposer: Peer, voters: seq<Peer>, h: nat, n: nat, c: Cid): seq<Event> {
    BothVotes(t, voters, h, n, c) + [Receive(proposer, BlockMsg(h, n, t.str(c)), false, false)]
  }

  /** Whatever f is, f + 1 prevotes and f + 1 precommits of distinct voters make it commit. */
  lemma ReadyCommits(t: Texts, s: State, proposer: Peer, voters: seq<Peer>, h: nat, n: nat, c: Cid)
    requires Ready(s, proposer, h, n, c) && NoDuplicates(voters) && proposer !in voters && |voters| == s.prop.f + 1
    ensures var r := Run(t, s, Ballots(t, proposer, voters, h, n, c));
            && r == s.(tip := Tip(proposer, h, c, s.tip.block), prop := r.prop, past := r.past,
                       timers := s.timers.(prevote := false, precommit := false, block := false))
            && r.past.log == s.past.log + Voiced(s, PreCommit, t.str(c))
            && r.past.commits == s.past.commits +
                 [Commit(s.past.epoch, proposer, h, n, c, s.prop.f,
                         Tally(t, voters, PreVote, h, n, c), Tally(t, voters, PreCommit, h, n, c))]
  {
    var both := BothVotes(t, voters, h, n, c);
    VotesComplete(t, s, voters);
    RunOneMore(t, s, both, Receive(proposer, BlockMsg(h, n, t.str(c)), false, false));
    OneBlock(t, Run(t, s, both), proposer, h);
  }

  /** Told of the proposer, of its round and of its block. */
  function Invited(t: Texts, proposer: Peer, h: nat, n: nat, c: Cid, env: RoundEnv): seq<Event> {
    [Tick(proposer, env), Receive(proposer, NewRound(h, n), false, false),
     Receive(proposer, Proposal(h, n, t.str(c)), true, true)]
  }

  /** An announcement from the proposer: the height and round announced, nothing left of the epoch before
      but the block and the votes required, and a fresh wait for a proposal. */
  lemma OneNewRound(t: Texts, s: State, proposer: Peer, h: nat, n: nat)
    requires s.tip.proposer == proposer
    ensures var r := Next(t, s, Receive(proposer, NewRound(h, n), false, false));
            && r.prop == Round(s.prop.amProposer, h, n, Propose, s.prop.block, s.prop.f, map[], map[], Undef, 0,
                               false, false, false)
            && r == s.(prop := r.prop, timers := s.timers.(propose := true),
                       past := s.past.(epoch := s.past.epoch + 1))
  {
  }

  lemma AfterNewRound(t: Texts, s: State, proposer: Peer, h: nat, n: nat, env: RoundEnv)
    requires s.self != proposer
    ensures var r := Next(t, Next(t, s, Tick(proposer, env)), Receive(proposer, NewRound(h, n), false, false));
            && r.prop == Round(false, h, n, Propose, Undef, s.prop.f, map[], map[], Undef, 0, false, false, false)
            && r == s.(tip := s.tip.(proposer := proposer), prop := r.prop, timers := s.timers.(propose := true),
                       past := s.past.(epoch := s.past.epoch + 2))
  {
    OneNewRound(t, Next(t, s, Tick(proposer, env)), proposer, h, n);
  }

  lemma AfterInvitation(t: Texts, s: State, proposer: Peer, h: nat, n: nat, c: Cid, env: RoundEnv)
    requires SoundText(t) && s.self != proposer && c != Undef
    ensures var r := Run(t, s, Invited(t, proposer, h, n, c, env));
            && Ready(r, proposer, h, n, c) && r.prop.f == s.prop.f && r.tip == s.tip.(proposer := proposer)
            && r.self == s.self && r.canSign == s.canSign
            && r.past.commits == s.past.commits && r.past.epoch == s.past.epoch + 2
            && r.timers == s.timers.(propose := false, prevote := true)
            && r.past.log == s.past.log + Voiced(r, PreVote, t.str(c))
  {
    var es := Invited(t, proposer, h, n, c, env);
    AfterNewRound(t, s, proposer, h, n, env);
    OneProposal(t, Next(t, Next(t, s, es[0]), es[1]), proposer, h, n, c);
    RunThree(t, s, es[0], es[1], es[2]);
  }

  /** A node that does not lead takes part in whatever height and round the proposer announces.  It
      commits any valid block on f + 1 prevotes and f + 1 precommits from any distinct senders but the
      proposer, having prevoted and precommitted it, and has no timer left running. */
  lemma VotesCommit(t: Texts, s: State, proposer: Peer, voters: seq<Peer>, h: nat, n: nat, c: Cid, env: RoundEnv)
    requires SoundText(t) && s.self != proposer && c != Undef
    requires NoDuplicates(voters) && proposer !in voters && |voters| == s.prop.f + 1
    ensures var r := Run(t, s, Invited(t, proposer, h, n, c, env) + Ballots(t, proposer, voters, h, n, c));
            && r.tip == Tip(proposer, h, c, s.tip.block)
            && r.timers == Timers(false, false, false, false, s.timers.pending)
            && r.past.log == s.past.log +
                 if s.canSign then [Sent(s.past.epoch + 2, VoteMsg(Ballot(t, s.self, PreVote, h, n, c))),
                                    Sent(s.past.epoch + 2, VoteMsg(Ballot(t, s.self, PreCommit, h, n, c)))]
                 else []
  {
    var es := Invited(t, proposer, h, n, c, env);
    AfterInvitation(t, s, proposer, h, n, c, env);
    RunAppend(t, s, es, Ballots(t, proposer, voters, h, n, c));
    ReadyCommits(t, Run(t, s, es), proposer, voters, h, n, c);
  }

  /** A node that has never led requires none, and commits on one vote of each kind. */
  lemma OneVoteCommits(t: Texts, s: State, proposer: Peer, voter: Peer, h: nat, n: nat, c: Cid, env: RoundEnv)
    requires SoundText(t) && s.prop.f == 0 && s.self != proposer && voter != proposer && c != Undef
    ensures Run(t, s, Invited(t, proposer, h, n, c, env) + Ballots(t, proposer, [voter], h, n, c)).tip ==
            Tip(proposer, h, c, s.tip.block)
  {
    VotesCommit(t, s, proposer, [voter], h, n, c, env);
  }

  // --------------------------------------------------------------------------------------------
  // A leader
  // --------------------------------------------------------------------------------------------

  /** The prevotes needed, less one, among the nodes other than this one. */
  function Required(nodes: seq<Peer>, self: Peer): nat {
    |(set p | p in nodes && p != self)| / 3 * 2 + 1
  }

  /** What a leader that can reach the network says at the start of a round. */
  function Openers(t: Texts, s: State, epoch: nat, h: nat, n: nat, c: Cid): seq<Sent> {
    if s.canSign then [Sent(epoch, NewRound(h, n)), Sent(epoch, Proposal(h, n, t.str(c)))] else []
  }

  lemma OthersAre(nodes: seq<Peer>, self: Peer)
    ensures Others(nodes, self) == (set p | p in nodes && p != self)
  {
  }

  /** The leader's start: it announces the round, builds a block unless it has one, proposes it and waits
      for prevotes. */
  lemma Leads(t: Texts, s: State, nodes: seq<Peer>, build: Build)
    requires s.prop.block != Undef || build.Stored? || build == NothingToPropose
    ensures var r := Lead(t, s, RoundEnv(true, Some(nodes), build, true));
            var c := if s.prop.block == Undef && build.Stored? then build.cid else s.prop.block;
            && r == s.(prop := s.prop.(f := Required(nodes, s.self), block := c, step := Prevote), past := r.past)
            && r.past == s.past.(log := s.past.log + Openers(t, s, s.past.epoch, s.prop.height, s.prop.round, c),
                                 built := r.past.built)
  {
    OthersAre(nodes, s.self);
    var env := RoundEnv(true, Some(nodes), build, true);
    assert ReachesProposal(s, env) && SendOk(s, true);
    if s.canSign {
      assert (s.past.log + [Sent(s.past.epoch, NewRound(s.prop.height, s.prop.round))]) +
             [Sent(s.past.epoch, Proposal(s.prop.height, s.prop.round, t.str(LeadBlock(s, env))))] ==
             s.past.log + Openers(t, s, s.past.epoch, s.prop.height, s.prop.round, LeadBlock(s, env));
    }
  }

  /** Whatever goes wrong at the start of a led round ends it there: without an announcement nothing has
      happened, without the node list or a block nothing is proposed, and unless the proposal got out
      the node does not go on to prevotes. */
  lemma LeadFails(t: Texts, s: State, env: RoundEnv)
    requires s.canSign
    ensures var r := Lead(t, s, env);
            var hello := Sent(s.past.epoch, NewRound(s.prop.height, s.prop.round));
            && (!env.newRoundSent ==> r == s)
            && (env.newRoundSent && env.nodes.None? ==> r == s.(past := s.past.(log := s.past.log + [hello])))
            && (env.newRoundSent && env.nodes.Some? && s.prop.block == Undef &&
                (env.build == BuildFailed || env.build == StoreFailed) ==>
                  r == s.(prop := s.prop.(f := Required(env.nodes.value, s.self)),
                          past := s.past.(log := s.past.log + [hello])))
            && (env.newRoundSent && env.nodes.Some? && !env.proposalSent ==>
                  r.prop.step == s.prop.step && r.past.log == s.past.log + [hello])
  {
    if env.nodes.Some? {
      OthersAre(env.nodes.value, s.self);
    }
  }

  lemma TickLeads(t: Texts, s: State, nodes: seq<Peer>, c: Cid)
    ensures var h := (s.tip.height + 1) % TwoTo64;
            var r := Next(t, s, Tick(s.self, RoundEnv(true, Some(nodes), Stored(c), true)));
            && r.prop == Round(true, h, 1, Prevote, c, Required(nodes, s.self), map[], map[], Undef, 0,
                               false, false, false)
            && r == s.(tip := s.tip.(proposer := s.self), prop := r.prop, timers := s.timers.(prevote := true),
                       past := r.past)
            && r.past == s.past.(epoch := s.past.epoch + 1, built := r.past.built,
                                 log := s.past.log + Openers(t, s, s.past.epoch + 1, h, 1, c))
  {
    var h := (s.tip.height + 1) % TwoTo64;
    var o := s.(tip := s.tip.(proposer := s.self), timers := s.timers.(prevote := true),
                prop := Round(true, h, 1, Propose, Undef, s.prop.f, map[], map[], Undef, 0, false, false, false),
                past := s.past.(epoch := s.past.epoch + 1));
    assert Next(t, s, Tick(s.self, RoundEnv(true, Some(nodes), Stored(c), true))) ==
           Lead(t, o, RoundEnv(true, Some(nodes), Stored(c), true));
    Leads(t, o, nodes, Stored(c));
  }

  /** A broadcast that cannot be sent is not tried again, and the leader does not commit. */
  lemma UnsentBroadcast(t: Texts, s: State)
    requires s.timers.pending > 0
    ensures Next(t, s, Broadcast(false)) == s.(timers := s.timers.(pending := s.timers.pending - 1))
  {
  }

  /** A timer that is not armed does not fire, and a broadcast that is not waiting is not sent. */
  lemma Unarmed(t: Texts, s: State, sent: bool, env: RoundEnv)
    ensures !s.timers.propose ==> Next(t, s, ProposeTimeout(sent)) == s
    ensures !s.timers.prevote ==> Next(t, s, PrevoteTimeout(sent)) == s
    ensures !s.timers.precommit ==> Next(t, s, PrecommitTimeout(env)) == s
    ensures s.timers.pending == 0 ==> Next(t, s, Broadcast(sent)) == s
  {
  }

  lemma OneBroadcast(t: Texts, s: State)
    requires s.canSign && s.timers.pending > 0 && s.prop.step == Committing && s.tip.proposer == s.self
    ensures var p := s.prop;
            var r := Next(t, s, Broadcast(true));
            && r == s.(tip := Tip(s.self, p.height, p.lockedValue, s.tip.block), past := r.past,
                       timers := s.timers.(block := false, pending := s.timers.pending - 1))
            && r.past.log == s.past.log +
                 [Sent(s.past.epoch, BlockMsg(p.height, p.lockedRound, t.str(p.lockedValue)))]
            && |r.past.commits| == |s.past.commits| + 1
  {
  }

  /** A leader in the prevote step of its n-th round, with a block and its prevote timer running. */
  ghost predicate Leading(s: State, n: nat, c: Cid) {
    && s.tip.proposer == s.self && s.timers.prevote
    && s.prop == Round(true, (s.tip.height + 1) % TwoTo64, n, Prevote, c, s.prop.f, map[], map[], Undef, 0,
                       false, false, false)
  }

  /** In whatever round it is, f + 1 votes of each kind and the end of the grace period make it commit. */
  lemma LeadingCommits(t: Texts, s: State, voters: seq<Peer>, n: nat, c: Cid)
    requires Leading(s, n, c) && s.canSign && NoDuplicates(voters) && s.self !in voters && |voters| == s.prop.f + 1
    ensures var h := s.prop.height;
            var r := Run(t, s, BothVotes(t, voters, h, n, c) + [Broadcast(true)]);
            && r.tip == Tip(s.self, h, c, s.tip.block)
            && r.timers == s.timers.(prevote := false, precommit := false, block := false)
            && r.past.log == s.past.log +
                 [Sent(s.past.epoch, VoteMsg(Ballot(t, s.self, PreCommit, h, n, c))),
                  Sent(s.past.epoch, BlockMsg(h, n, t.str(c)))]
  {
    var both := BothVotes(t, voters, s.prop.height, n, c);
    VotesComplete(t, s, voters);
    OneBroadcast(t, Run(t, s, both));
    RunOneMore(t, s, both, Broadcast(true));
  }

  /** A node that leads builds a block, collects as many votes of each kind as two thirds of the other
      nodes ask for, announces the block and commits it; these four messages are all it says. */
  lemma LeaderCommits(t: Texts, s: State, nodes: seq<Peer>, voters: seq<Peer>, c: Cid)
    requires s.canSign && NoDuplicates(voters) && s.self !in voters && |voters| == Required(nodes, s.self) + 1
    ensures var h := (s.tip.height + 1) % TwoTo64;
            var lead := [Tick(s.self, RoundEnv(true, Some(nodes), Stored(c), true))];
            var r := Run(t, s, lead + (BothVotes(t, voters, h, 1, c) + [Broadcast(true)]));
            && r.tip == Tip(s.self, h, c, s.tip.block)
            && r.timers == s.timers.(prevote := false, precommit := false, block := false)
            && r.past.log == s.past.log + LeaderSays(t, s, h, c)
  {
    var h := (s.tip.height + 1) % TwoTo64;
    var e := Tick(s.self, RoundEnv(true, Some(nodes), Stored(c), true));
    TickLeads(t, s, nodes, c);
    LedCommits(t, s, Next(t, s, e), voters, c);
    RunOneMore(t, s, [], e);
    assert [] + [e] == [e];
    RunAppend(t, s, [e], BothVotes(t, voters, h, 1, c) + [Broadcast(true)]);
  }

  lemma LedCommits(t: Texts, s: State, led: State, voters: seq<Peer>, c: Cid)
    requires s.canSign && NoDuplicates(voters) && s.self !in voters && |voters| == led.prop.f + 1
    requires led == s.(tip := s.tip.(proposer := s.self), prop := led.prop, timers := s.timers.(prevote := true),
                       past := led.past)
    requires Leading(led, 1, c) && led.past.epoch == s.past.epoch + 1
    requires led.past.log == s.past.log + Openers(t, s, led.past.epoch, led.prop.height, 1, c)
    ensures var h := led.prop.height;
            var r := Run(t, led, BothVotes(t, voters, h, 1, c) + [Broadcast(true)]);
            && r.tip == Tip(s.self, h, c, s.tip.block)
            && r.timers == s.timers.(prevote := false, precommit := false, block := false)
            && r.past.log == s.past.log + LeaderSays(t, s, h, c)
  {
    LeadingCommits(t, led, voters, 1, c);
    LeaderSaysAll(t, s, led.prop.height, c);
  }

  lemma LeaderSaysAll(t: Texts, s: State, h: nat, c: Cid)
    requires s.canSign
    ensures var g := s.past.epoch + 1;
            s.past.log + LeaderSays(t, s, h, c) ==
            (s.past.log + Openers(t, s, g, h, 1, c)) +
            [Sent(g, VoteMsg(Ballot(t, s.self, PreCommit, h, 1, c))), Sent(g, BlockMsg(h, 1, t.str(c)))]
  {
  }

  function LeaderSays(t: Texts, s: State, h: nat, c: Cid): seq<Sent> {
    var g := s.past.epoch + 1;
    [Sent(g, NewRound(h, 1)), Sent(g, Proposal(h, 1, t.str(c))),
     Sent(g, VoteMsg(Ballot(t, s.self, PreCommit, h, 1, c))), Sent(g, BlockMsg(h, 1, t.str(c)))]
  }

  // --------------------------------------------------------------------------------------------
  // Rounds in which nothing is heard
  // --------------------------------------------------------------------------------------------

  /** The messages of a node that hears nothing: a blank vote, if it can be signed and sent. */
  function BlankVote(s: State, kind: VoteKind, sent: bool): seq<Sent> {
    if s.canSign && sent then [Sent(s.past.epoch, VoteMsg(Vote(kind, s.prop.height, s.prop.round, Blank, s.self)))]
    else []
  }

  /** The propose timeout acts in the propose step, and in any step once the height is committed. */
  lemma OneProposeTimeout(t: Texts, s: State, sent: bool)
    requires s.timers.propose
    ensures var r := Next(t, s, ProposeTimeout(sent));
            var late := s.(timers := s.timers.(propose := false));
            if s.prop.step != Propose && s.prop.height != s.tip.height then r == late
            else if s.prop.pvDone then r == late.(prop := s.prop.(step := Prevote))
            else
              r == late.(prop := s.prop.(step := Prevote, pvDone := true),
                         timers := s.timers.(propose := false, prevote := true),
                         past := s.past.(log := s.past.log + BlankVote(s, PreVote, sent)))
  {
  }

  lemma OnePrevoteTimeout(t: Texts, s: State, sent: bool)
    requires s.timers.prevote
    ensures var r := Next(t, s, PrevoteTimeout(sent));
            var late := s.(timers := s.timers.(prevote := false));
            if s.prop.step != Prevote && s.prop.height != s.tip.height then r == late
            else if s.prop.pcDone then r == late.(prop := s.prop.(step := Precommit))
            else
              r == late.(prop := s.prop.(step := Precommit, pcDone := true),
                         timers := s.timers.(prevote := false, precommit := true),
                         past := s.past.(log := s.past.log + BlankVote(s, PreCommit, sent)))
  {
  }

  /** A follower whose precommits do not come starts the next round.  Without a block it waits for a
      proposal again; with one, or when the round counter has wrapped, it goes straight to prevotes. */
  lemma OnePrecommitTimeout(t: Texts, s: State, env: RoundEnv)
    requires s.timers.precommit && s.tip.proposer != s.self
    ensures var n := (s.prop.round + 1) % TwoTo32;
            var r := Next(t, s, PrecommitTimeout(env));
            && r.prop == Round(false, (s.tip.height + 1) % TwoTo64, n,
                               if s.prop.block == Undef && n > 1 then Propose else Prevote,
                               s.prop.block, s.prop.f, map[], map[], Undef, 0, false, false, false)
            && r == s.(prop := r.prop, timers := s.timers.(propose := true, precommit := false),
                       past := s.past.(epoch := s.past.epoch + 1))
  {
  }

  /** A follower waiting for a proposal, with only its propose timer running. */
  ghost predicate Waiting(s: State, n: nat) {
    && s.tip.proposer != s.self && s.timers == Timers(true, false, false, false, s.timers.pending)
    && s.prop == Round(false, (s.tip.height + 1) % TwoTo64, n, Propose, Undef, s.prop.f, map[], map[], Undef, 0,
                       false, false, false)
  }

  /** The three timeouts of a silent round. */
  function Silence(sent: bool, env: RoundEnv): seq<Event> {
    [ProposeTimeout(sent), PrevoteTimeout(sent), PrecommitTimeout(env)]
  }

  lemma SilentRound(t: Texts, s: State, n: nat, sent: bool, env: RoundEnv)
    requires Waiting(s, n) && 0 < n && n + 1 < TwoTo32
    ensures var r := Run(t, s, Silence(sent, env));
            && Waiting(r, n + 1) && r.tip == s.tip && r.self == s.self && r.canSign == s.canSign
            && r.past == s.past.(epoch := s.past.epoch + 1,
                                 log := s.past.log + BlankVote(s, PreVote, sent) + BlankVote(s, PreCommit, sent))
  {
    var es := Silence(sent, env);
    var a := Next(t, s, es[0]);
    OneProposeTimeout(t, s, sent);
    OnePrevoteTimeout(t, a, sent);
    OnePrecommitTimeout(t, Next(t, a, es[1]), env);
    RunThree(t, s, es[0], es[1], es[2]);
  }

  function Silences(k: nat, sent: bool, env: RoundEnv): seq<Event> {
    if k == 0 then [] else Silences(k - 1, sent, env) + Silence(sent, env)
  }

  /** A follower that hears nothing never gives up: after k silent rounds it waits in the k-th round
      after, with the same committed state, and has sent two blank votes in each. */
  lemma {:induction false} SilentRounds(t: Texts, s: State, n: nat, k: nat, sent: bool, env: RoundEnv)
    requires Waiting(s, n) && 0 < n && n + k < TwoTo32
    ensures var r := Run(t, s, Silences(k, sent, env));
            && Waiting(r, n + k) && r.tip == s.tip && r.self == s.self && r.canSign == s.canSign
            && |r.past.log| == |s.past.log| + if s.canSign && sent then 2 * k else 0
  {
    if k > 0 {
      SilentRounds(t, s, n, k - 1, sent, env);
      SilentRound(t, Run(t, s, Silences(k - 1, sent, env)), n + k - 1, sent, env);
      RunAppend(t, s, Silences(k - 1, sent, env), Silence(sent, env));
    }
  }

  /** A leader that hears nothing proposes the same block again in the next round, whatever it could
      build by then, and counts the nodes anew. */
  lemma LeaderRetries(t: Texts, s: State, n: nat, c: Cid, nodes: seq<Peer>, build: Build)
    requires Leading(s, n, c) && c != Undef && n + 1 < TwoTo32
    ensures var env := RoundEnv(true, Some(nodes), build, true);
            var r := Run(t, s, [PrevoteTimeout(true), PrecommitTimeout(env)]);
            && Leading(r, n + 1, c) && r.prop.f == Required(nodes, s.self) && r.tip == s.tip
            && r.past.log == s.past.log + BlankVote(s, PreCommit, true) +
                 Openers(t, s, s.past.epoch + 1, s.prop.height, n + 1, c)
  {
    var env := RoundEnv(true, Some(nodes), build, true);
    OnePrevoteTimeout(t, s, true);
    LeadsOn(t, s, Next(t, s, PrevoteTimeout(true)), n, c, nodes, build);
    RunTwo(t, s, PrevoteTimeout(true), PrecommitTimeout(env));
  }

  lemma LeadsOn(t: Texts, s: State, a: State, n: nat, c: Cid, nodes: seq<Peer>, build: Build)
    requires Leading(s, n, c) && c != Undef && n + 1 < TwoTo32
    requires a == s.(prop := s.prop.(step := Precommit, pcDone := true),
                     timers := s.timers.(prevote := false, precommit := true),
                     past := s.past.(log := s.past.log + BlankVote(s, PreCommit, true)))
    ensures var r := Next(t, a, PrecommitTimeout(RoundEnv(true, Some(nodes), build, true)));
            && Leading(r, n + 1, c) && r.prop.f == Required(nodes, s.self) && r.tip == s.tip
            && r.past.log == s.past.log + BlankVote(s, PreCommit, true) +
                 Openers(t, s, s.past.epoch + 1, s.prop.height, n + 1, c)
  {
    Reopens(t, a, n, c, nodes, build);
  }

  lemma Reopens(t: Texts, s: State, n: nat, c: Cid, nodes: seq<Peer>, build: Build)
    requires s.tip.proposer == s.self && s.timers.precommit && s.prop.block == c && c != Undef
    requires s.prop.round == n && n + 1 < TwoTo32
    ensures var h := (s.tip.height + 1) % TwoTo64;
            var r := Next(t, s, PrecommitTimeout(RoundEnv(true, Some(nodes), build, true)));
            && r.prop == Round(true, h, n + 1, Prevote, c, Required(nodes, s.self), map[], map[], Undef, 0,
                               false, false, false)
            && r == s.(prop := r.prop, timers := s.timers.(prevote := true, precommit := false), past := r.past)
            && r.past == s.past.(epoch := s.past.epoch + 1, built := r.past.built,
                                 log := s.past.log + Openers(t, s, s.past.epoch + 1, h, n + 1, c))
  {
    var h := (s.tip.height + 1) % TwoTo64;
    var env := RoundEnv(true, Some(nodes), build, true);
    var o := s.(timers := s.timers.(prevote := true, precommit := false),
                prop := Round(true, h, n + 1, Prevote, c, s.prop.f, map[], map[], Undef, 0, false, false, false),
                past := s.past.(epoch := s.past.epoch + 1));
    Reopened(t, s, o, env);
    Leads(t, o, nodes, build);
  }

  lemma Reopened(t: Texts, s: State, o: State, env: RoundEnv)
    requires s.tip.proposer == s.self && s.timers.precommit && s.prop.round + 1 < TwoTo32
    requires o == s.(timers := s.timers.(prevote := true, precommit := false),
                     prop := Round(true, (s.tip.height + 1) % TwoTo64, s.prop.round + 1, Prevote, s.prop.block,
                                   s.prop.f, map[], map[], Undef, 0, false, false, false),
                     past := s.past.(epoch := s.past.epoch + 1))
    ensures Next(t, s, PrecommitTimeout(env)) == Lead(t, o, env)
  {
    assert Opened(s.(timers := s.timers.(precommit := false)), true) == o.prop;
  }
}
