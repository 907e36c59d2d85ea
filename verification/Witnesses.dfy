/** Runs that show where stronger claims about the rounds fail. */
module Witnesses {
  import opened Bytes
  import opened Objects
  import opened Rounds
  import opened Progress

  /** A leader's first event: it announces a round and proposes c to these nodes. */
  function LeadWith(s: State, nodes: seq<Peer>, c: Cid): Event {
    Tick(s.self, RoundEnv(true, Some(nodes), Stored(c), true))
  }

  /** Enough voters for a leader of these nodes, itself not among them. */
  ghost predicate Enough(self: Peer, nodes: seq<Peer>, voters: seq<Peer>) {
    NoDuplicates(voters) && self !in voters && |voters| == Required(nodes, self) + 1
  }

  // --------------------------------------------------------------------------------------------
  // A broadcast left over from an earlier epoch
  // --------------------------------------------------------------------------------------------

  /** What a leader of these nodes is like after its first event. */
  ghost predicate Led(s: State, led: State, nodes: seq<Peer>, c: Cid) {
    && Leading(led, 1, c) && led.prop.f == Required(nodes, s.self) && led.self == s.self && led.canSign == s.canSign
    && led.tip == s.tip.(proposer := s.self) && led.timers.pending == s.timers.pending
  }

  lemma BecomesLeader(t: Texts, s: State, nodes: seq<Peer>, c: Cid)
    ensures Led(s, Next(t, s, LeadWith(s, nodes, c)), nodes, c)
  {
    TickLeads(t, s, nodes, c);
  }

  lemma CompletedFrom(t: Texts, led: State, voters: seq<Peer>, c: Cid)
    requires Leading(led, 1, c) && NoDuplicates(voters) && led.self !in voters && |voters| == led.prop.f + 1
    ensures var r := Run(t, led, BothVotes(t, voters, led.prop.height, 1, c));
            && r.tip == led.tip && r.self == led.self && r.canSign == led.canSign
            && r.timers.pending == led.timers.pending + 1
  {
    VotesComplete(t, led, voters);
  }

  lemma LockedFrom(t: Texts, led: State, voters: seq<Peer>, c: Cid)
    requires Leading(led, 1, c) && NoDuplicates(voters) && led.self !in voters && |voters| == led.prop.f + 1
    ensures var r := Run(t, led, Votes(t, voters, PreVote, led.prop.height, 1, c));
            && r.tip == led.tip && r.canSign == led.canSign && r.timers.pending == led.timers.pending
            && r.prop.height == led.prop.height && r.prop.step == Precommit
            && r.prop.lockedValue == c && r.prop.lockedRound == 1 && r.prop.preCommits == map[]
  {
    PreVotesLock(t, led, voters);
  }

  lemma EarlyBroadcast(t: Texts, s: State)
    requires s.canSign && s.timers.pending > 0 && s.prop.step != Committing
    ensures var r := Next(t, s, Broadcast(true));
            && r.prop == s.prop && r.tip == s.tip
            && r.past.log == s.past.log +
                 [Sent(s.past.epoch, BlockMsg(s.prop.height, s.prop.lockedRound, t.str(s.prop.lockedValue)))]
  {
  }

  /** Made leader and having locked d, this node announces d without a single precommit for it. */
  ghost predicate AnnouncesUnbacked(t: Texts, s: State, nodes: seq<Peer>, voters: seq<Peer>, d: Cid) {
    var led := Next(t, s, LeadWith(s, nodes, d));
    var h := led.prop.height;
    var again := Run(t, led, Votes(t, voters, PreVote, h, 1, d));
    var r := Next(t, again, Broadcast(true));
    && h == (s.tip.height + 1) % TwoTo64
    && r.past.log == again.past.log + [Sent(again.past.epoch, BlockMsg(h, 1, t.str(d)))]
    && r.prop.preCommits == map[] && r.tip.block == s.tip.block
  }

  /** The leader completes a round, is made leader again before the grace period is over, and locks
      the next block: the broadcast that then fires announces that next block, for which it has no
      precommit at all. */
  lemma LeftoverBroadcast(t: Texts, s: State, nodes: seq<Peer>, voters: seq<Peer>, c: Cid, d: Cid)
    requires Enough(s.self, nodes, voters) && s.canSign
    ensures var led := Next(t, s, LeadWith(s, nodes, c));
            var done := Run(t, led, BothVotes(t, voters, led.prop.height, 1, c));
            done.tip == s.tip.(proposer := s.self) && AnnouncesUnbacked(t, done, nodes, voters, d)
  {
    BecomesLeader(t, s, nodes, c);
    LeftoverFrom(t, s, Next(t, s, LeadWith(s, nodes, c)), nodes, voters, c, d);
  }

  lemma LeftoverFrom(t: Texts, s: State, led: State, nodes: seq<Peer>, voters: seq<Peer>, c: Cid, d: Cid)
    requires Enough(s.self, nodes, voters) && s.canSign && Led(s, led, nodes, c)
    ensures var done := Run(t, led, BothVotes(t, voters, led.prop.height, 1, c));
            done.tip == s.tip.(proposer := s.self) && AnnouncesUnbacked(t, done, nodes, voters, d)
  {
    var done := Run(t, led, BothVotes(t, voters, led.prop.height, 1, c));
    assert done.tip == led.tip && done.self == led.self && done.canSign && done.timers.pending > 0 by {
      CompletedFrom(t, led, voters, c);
    }
    LedAgain(t, done, nodes, voters, d);
  }

  lemma LedAgain(t: Texts, s: State, nodes: seq<Peer>, voters: seq<Peer>, d: Cid)
    requires Enough(s.self, nodes, voters) && s.canSign && s.timers.pending > 0
    ensures AnnouncesUnbacked(t, s, nodes, voters, d)
  {
    BecomesLeader(t, s, nodes, d);
    BroadcastLeftOver(t, s, Next(t, s, LeadWith(s, nodes, d)), nodes, voters, d);
  }

  lemma BroadcastLeftOver(t: Texts, s: State, led: State, nodes: seq<Peer>, voters: seq<Peer>, d: Cid)
    requires Enough(s.self, nodes, voters) && s.canSign && s.timers.pending > 0 && Led(s, led, nodes, d)
    ensures var h := led.prop.height;
            var again := Run(t, led, Votes(t, voters, PreVote, h, 1, d));
            var r := Next(t, again, Broadcast(true));
            && h == (s.tip.height + 1) % TwoTo64
            && r.past.log == again.past.log + [Sent(again.past.epoch, BlockMsg(h, 1, t.str(d)))]
            && r.prop.preCommits == map[] && r.tip.block == s.tip.block
  {
    LockedFrom(t, led, voters, d);
    EarlyBroadcast(t, Run(t, led, Votes(t, voters, PreVote, led.prop.height, 1, d)));
  }

  // --------------------------------------------------------------------------------------------
  // A broadcast of no block at all
  // --------------------------------------------------------------------------------------------

  /** With these precommits, for a block that is not locked, the leader announces and commits no block. */
  ghost predicate AnnouncesNothing(t: Texts, late: State, voters: seq<Peer>, c: Cid) {
    var h := late.prop.height;
    var done := Run(t, late, Votes(t, voters, PreCommit, h, 1, c));
    var r := Next(t, done, Broadcast(true));
    && done.prop.sbDone && done.past.epoch in done.past.scheduled && done.prop.preVotes == map[]
    && done.prop.preCommits == Tally(t, voters, PreCommit, h, 1, c) && |voters| > done.prop.f
    && r.past.log == done.past.log + [Sent(done.past.epoch, BlockMsg(h, 0, t.str(Undef)))]
    && r.tip == Tip(late.self, h, Undef, late.tip.block)
  }

  lemma LatePrecommits(t: Texts, late: State, voters: seq<Peer>, c: Cid)
    requires late.canSign && late.tip.proposer == late.self && MayVote(late, voters) && |voters| == late.prop.f + 1
    requires late.prop == Round(true, late.prop.height, 1, Precommit, c, late.prop.f, map[], map[], Undef, 0,
                                late.prop.pvDone, true, false)
    ensures AnnouncesNothing(t, late, voters, c)
  {
    PreCommitsComplete(t, late, voters);
    OneBroadcast(t, Run(t, late, Votes(t, voters, PreCommit, late.prop.height, 1, c)));
  }

  /** The leader's prevote timer fires before a prevote arrives; then come more than f precommits for the
      block c that it built, and the broadcast is scheduled in this very epoch.  But no lock was taken:
      it announces the undefined CID for round 0, and commits that without a single prevote. */
  lemma UndefinedBroadcast(t: Texts, s: State, nodes: seq<Peer>, voters: seq<Peer>, c: Cid)
    requires Enough(s.self, nodes, voters) && s.canSign
    ensures var late := Next(t, Next(t, s, LeadWith(s, nodes, c)), PrevoteTimeout(true));
            && late.prop.height == (s.tip.height + 1) % TwoTo64 && late.prop.block == c
            && late.tip == s.tip.(proposer := s.self) && AnnouncesNothing(t, late, voters, c)
  {
    BecomesLeader(t, s, nodes, c);
    var led := Next(t, s, LeadWith(s, nodes, c));
    OnePrevoteTimeout(t, led, true);
    LatePrecommits(t, Next(t, led, PrevoteTimeout(true)), voters, c);
  }
}
