/** The single-node results, for every run of handler steps from the first beacon tick on. */
module RoundTheorems {
  import opened Objects
  import opened Rounds
  import opened RoundSafety
  import opened RoundHistory
  import opened RoundRecords
  import opened RoundEpochs

  ghost predicate Inv(t: Texts, s: State) {
    RoundInv(t, s) && LogInv(t, s) && RecordInv(t, s) && EpochInv(s)
  }

  lemma InvNext(t: Texts, s: State, e: Event)
    requires SoundText(t) && Inv(t, s)
    ensures Inv(t, Next(t, s, e))
  {
    RoundInvNext(t, s, e);
    LogInvNext(t, s, e);
    RecordInvNext(t, s, e);
    EpochInvNext(t, s, e);
  }

  lemma InvBoot(t: Texts, s: State)
    requires IsBoot(s)
    ensures Inv(t, s)
  {
  }

  lemma InvInitial(t: Texts, s: State)
    requires SoundText(t) && Initial(t, s)
    ensures Inv(t, s)
  {
    var b, proposer, env :| IsBoot(b) && s == OnTick(t, b, proposer, env);
    InvBoot(t, b);
    InvNext(t, b, Tick(proposer, env));
  }

  lemma {:induction false} InvRun(t: Texts, s: State, es: seq<Event>)
    requires SoundText(t) && Inv(t, s)
    ensures Inv(t, Run(t, s, es))
  {
    if es != [] {
      InvRun(t, s, es[..|es| - 1]);
      InvNext(t, Run(t, s, es[..|es| - 1]), es[|es| - 1]);
    }
  }

  lemma Reachable(t: Texts, s0: State, es: seq<Event>)
    requires SoundText(t) && Initial(t, s0)
    ensures Inv(t, Run(t, s0, es))
  {
    InvInitial(t, s0);
    InvRun(t, s0, es);
  }

  // --------------------------------------------------------------------------------------------
  // Quorums behind commits
  // --------------------------------------------------------------------------------------------

  /** Every commit of a defined block rests on more than f prevotes and more than f precommits of
      distinct senders other than the proposer, all for exactly its height, round and block. */
  lemma CommitsBacked(t: Texts, s0: State, es: seq<Event>, i: nat)
    requires SoundText(t) && Initial(t, s0)
    requires i < |Run(t, s0, es).past.commits| && Run(t, s0, es).past.commits[i].block != Undef
    ensures CommitJustified(t, Run(t, s0, es).past.commits[i])
  {
    Reachable(t, s0, es);
  }

  /** The committed tip moves only by a recorded commit, and is then what that commit says. */
  ghost predicate TipFollows(start: State, s: State) {
    var n, k := |start.past.commits|, |s.past.commits|;
    && n <= k && s.past.commits[..n] == start.past.commits
    && if k == n then s.tip.height == start.tip.height && s.tip.block == start.tip.block
       else s.tip.height == s.past.commits[k - 1].height && s.tip.block == s.past.commits[k - 1].block
  }

  lemma TipStep(t: Texts, s: State, e: Event)
    ensures var r := Next(t, s, e);
            || (r.tip == s.tip.(proposer := r.tip.proposer) && r.past.commits == s.past.commits)
            || (r.past.commits == s.past.commits + [CommitOf(s)] && r.tip.height == s.prop.height
              && r.tip.block == s.prop.lockedValue)
  {
    match e
    case Tick(p, env) => StartFrame(t, s.(tip := s.tip.(proposer := p)), false, env);
    case PrecommitTimeout(env) => StartFrame(t, s.(timers := s.timers.(precommit := false)), true, env);
    case Receive(from, msg, valid, sent) => TipReceive(t, s, from, msg, valid, sent);
    case _ =>
  }

  lemma TipReceive(t: Texts, s: State, from: Peer, msg: Msg, valid: bool, sent: bool)
    ensures var r := OnReceive(t, s, from, msg, valid, sent);
            || (r.tip == s.tip && r.past.commits == s.past.commits)
            || (r.past.commits == s.past.commits + [CommitOf(s)] && r.tip.height == s.prop.height
              && r.tip.block == s.prop.lockedValue)
  {
  }

  lemma {:induction false} TipIsLastCommit(t: Texts, s0: State, es: seq<Event>)
    ensures TipFollows(s0, Run(t, s0, es))
  {
    if es != [] {
      TipIsLastCommit(t, s0, es[..|es| - 1]);
      TipStep(t, Run(t, s0, es[..|es| - 1]), es[|es| - 1]);
    }
  }

  // --------------------------------------------------------------------------------------------
  // At most once per epoch
  // --------------------------------------------------------------------------------------------

  /** Between two resets a node sends at most one prevote and at most one precommit, however
      proposals, quorums and timeouts interleave; the two agree on height and round and, unless
      one is blank, on the block they name. */
  lemma VotesOncePerEpoch(t: Texts, s0: State, es: seq<Event>, i: nat, j: nat)
    requires SoundText(t) && Initial(t, s0)
    ensures var log := Run(t, s0, es).past.log;
            i < j < |log| && log[i].epoch == log[j].epoch && log[i].msg.VoteMsg? && log[j].msg.VoteMsg? ==>
              log[i].msg.vote.kind != log[j].msg.vote.kind && Agree(t, log[i].msg.vote, log[j].msg.vote)
  {
    Reachable(t, s0, es);
    var s := Run(t, s0, es);
    if i < j < |s.past.log| && s.past.log[i].epoch == s.past.log[j].epoch && s.past.log[i].msg.VoteMsg?
      && s.past.log[j].msg.VoteMsg? {
      LogFacts(t, s, i, j);
    }
  }

  lemma LogFacts(t: Texts, s: State, i: nat, j: nat)
    requires LogInv(t, s) && i < |s.past.log| && j < |s.past.log|
    requires s.past.log[i].msg.VoteMsg? && s.past.log[j].msg.VoteMsg? && s.past.log[i].epoch == s.past.log[j].epoch
    ensures i != j ==> s.past.log[i].msg.vote.kind != s.past.log[j].msg.vote.kind
    ensures Agree(t, s.past.log[i].msg.vote, s.past.log[j].msg.vote)
  {
    var log := s.past.log;
    assert log[i].msg.vote.kind != ProposalVote;
    assert IsVote(log[i].msg, log[i].msg.vote.kind) && IsVote(log[j].msg, log[j].msg.vote.kind);
  }

  /** Between two resets a node takes at most one lock and schedules at most one broadcast. */
  lemma RecordsOncePerEpoch(t: Texts, s0: State, es: seq<Event>, i: nat, j: nat)
    requires SoundText(t) && Initial(t, s0)
    ensures var h := Run(t, s0, es).past;
            && (i < j < |h.scheduled| ==> h.scheduled[i] != h.scheduled[j])
            && (i < j < |h.locks| ==> h.locks[i].epoch != h.locks[j].epoch)
  {
    Reachable(t, s0, es);
  }

  // --------------------------------------------------------------------------------------------
  // The committing step
  // --------------------------------------------------------------------------------------------

  /** A node in the committing step never has its precommit timer armed, so its own precommit
      timeout cannot abandon the round, whatever timers earlier epochs left behind. */
  lemma CommittingIsNotAbandoned(t: Texts, s0: State, es: seq<Event>, env: RoundEnv)
    requires SoundText(t) && Initial(t, s0) && Run(t, s0, es).prop.step == Committing
    ensures Next(t, Run(t, s0, es), PrecommitTimeout(env)) == Run(t, s0, es)
  {
    Reachable(t, s0, es);
  }

  // --------------------------------------------------------------------------------------------
  // Heights
  // --------------------------------------------------------------------------------------------

  ghost predicate HeightInv(s: State) {
    s.tip.height <= s.prop.height <= s.tip.height + 1
  }

  /** A round announcement that is acted upon: `onNewRound` takes its height unchecked. */
  predicate Announces(s: State, e: Event) {
    e.Receive? && e.msg.NewRound? && e.from == s.tip.proposer
  }

  predicate OpensRound(s: State, e: Event) {
    e.Tick? || (e.PrecommitTimeout? && s.timers.precommit)
  }

  /** An announcement that is acted upon names the committed height or the next, and the height with
      which the node opens a round itself still fits. */
  predicate OnHeight(s: State, e: Event) {
    && (Announces(s, e) ==> s.tip.height <= e.msg.height <= s.tip.height + 1)
    && (OpensRound(s, e) ==> s.tip.height + 1 < TwoTo64)
  }

  /** Every step of the run does so. */
  predicate StaysOnHeight(t: Texts, s: State, es: seq<Event>) {
    es == [] ||
    (StaysOnHeight(t, s, es[..|es| - 1]) && OnHeight(Run(t, s, es[..|es| - 1]), es[|es| - 1]))
  }

  /** What a step does to the heights: a reset moves the proposal height, anything else moves the
      committed height to it or not at all. */
  ghost predicate MovesHeights(s: State, e: Event, r: State) {
    if Announces(s, e) then
      r.past.epoch == s.past.epoch + 1 && r.tip.height == s.tip.height && r.prop.height == e.msg.height
    else if OpensRound(s, e) then
      && r.past.epoch == s.past.epoch + 1 && r.tip.height == s.tip.height
      && r.prop.height == (s.tip.height + 1) % TwoTo64
    else
      && r.past.epoch == s.past.epoch && r.prop.height == s.prop.height
      && (r.tip.height == s.tip.height || r.tip.height == s.prop.height)
  }

  lemma HeightStep(t: Texts, s: State, e: Event)
    ensures MovesHeights(s, e, Next(t, s, e))
  {
    match e
    case Tick(p, env) => StartFrame(t, s.(tip := s.tip.(proposer := p)), false, env);
    case PrecommitTimeout(env) => StartFrame(t, s.(timers := s.timers.(precommit := false)), true, env);
    case Receive(from, msg, valid, sent) => HeightReceive(t, s, from, msg, valid, sent);
    case _ =>
  }

  lemma HeightReceive(t: Texts, s: State, from: Peer, msg: Msg, valid: bool, sent: bool)
    ensures MovesHeights(s, Receive(from, msg, valid, sent), OnReceive(t, s, from, msg, valid, sent))
  {
    match msg
    case NewRound(_, _) =>
    case Proposal(_, _, _) =>
    case VoteMsg(v) => VoteFrame(t, s, from, v, sent);
    case BlockMsg(_, _, _) =>
  }

  lemma VoteFrame(t: Texts, s: State, from: Peer, v: Vote, sent: bool)
    ensures var r := OnVote(t, s, from, v, sent);
            r.tip == s.tip && r.past.epoch == s.past.epoch && r.prop.height == s.prop.height
  {
    match v.kind
    case PreVote =>
    case PreCommit => PreCommitFrame(s, from, v);
    case ProposalVote =>
  }

  /** A step keeps the heights together exactly if it stays on height. */
  lemma HeightStepIff(t: Texts, s: State, e: Event)
    requires HeightInv(s)
    ensures HeightInv(Next(t, s, e)) <==> OnHeight(s, e)
  {
    HeightStep(t, s, e);
  }

  /** At every moment of the run the proposal height is the committed height or one more. */
  ghost predicate Together(t: Texts, s: State, es: seq<Event>) {
    HeightInv(Run(t, s, es)) && (es != [] ==> Together(t, s, es[..|es| - 1]))
  }

  lemma {:induction false} HeightsIff(t: Texts, s0: State, es: seq<Event>)
    ensures Together(t, s0, es) <==> HeightInv(s0) && StaysOnHeight(t, s0, es)
  {
    if es != [] {
      var before := es[..|es| - 1];
      HeightsIff(t, s0, before);
      if HeightInv(Run(t, s0, before)) {
        HeightStepIff(t, Run(t, s0, before), es[|es| - 1]);
      }
    }
  }

  lemma TickHeight(t: Texts, s: State, proposer: Peer, env: RoundEnv)
    ensures OnTick(t, s, proposer, env).tip.height == s.tip.height
    ensures OnTick(t, s, proposer, env).prop.height == (s.tip.height + 1) % TwoTo64
  {
    StartFrame(t, s.(tip := s.tip.(proposer := proposer)), false, env);
  }

  lemma TickHeightIff(t: Texts, s: State, proposer: Peer, env: RoundEnv)
    ensures HeightInv(OnTick(t, s, proposer, env)) <==> OnTick(t, s, proposer, env).tip.height + 1 < TwoTo64
  {
    TickHeight(t, s, proposer, env);
  }

  lemma InitialHeight(t: Texts, s: State)
    requires Initial(t, s)
    ensures HeightInv(s) <==> s.tip.height + 1 < TwoTo64
  {
    var b, proposer, env :| IsBoot(b) && s == OnTick(t, b, proposer, env);
    TickHeightIff(t, b, proposer, env);
  }

  /** In every run the two heights stay together exactly if the first height fits and every step
      stays on height. */
  lemma HeightsTogether(t: Texts, s0: State, es: seq<Event>)
    requires Initial(t, s0)
    ensures Together(t, s0, es) <==> s0.tip.height + 1 < TwoTo64 && StaysOnHeight(t, s0, es)
  {
    InitialHeight(t, s0);
    HeightsIff(t, s0, es);
  }

  /** The committed height has not fallen, has risen by at most one within the epoch, and otherwise
      by at most the number of resets plus one. */
  ghost predicate Rose(s: State, r: State) {
    && r.tip.height >= s.tip.height && r.past.epoch >= s.past.epoch
    && r.prop.height - s.prop.height <= r.past.epoch - s.past.epoch
    && r.tip.height - s.tip.height <= r.past.epoch - s.past.epoch + 1
    && (r.past.epoch == s.past.epoch ==> r.prop.height == s.prop.height && r.tip.height <= s.tip.height + 1)
  }

  lemma RoseStep(s0: State, s: State, e: Event, r: State)
    requires HeightInv(s0) && HeightInv(s) && Rose(s0, s) && OnHeight(s, e) && MovesHeights(s, e, r)
    ensures HeightInv(r) && Rose(s0, r)
  {
  }

  lemma {:induction false} HeightsRise(t: Texts, s0: State, es: seq<Event>)
    requires HeightInv(s0) && StaysOnHeight(t, s0, es)
    ensures HeightInv(Run(t, s0, es)) && Rose(s0, Run(t, s0, es))
  {
    if es != [] {
      var before, e := es[..|es| - 1], es[|es| - 1];
      HeightsRise(t, s0, before);
      HeightStep(t, Run(t, s0, before), e);
      RoseStep(s0, Run(t, s0, before), e, Run(t, s0, es));
    }
  }

  // --------------------------------------------------------------------------------------------
  // Commits of one epoch
  // --------------------------------------------------------------------------------------------

  /** Between two resets all commits are the same, whatever votes and timeouts lie between them. */
  lemma CommitsOfEpoch(t: Texts, s0: State, es: seq<Event>, i: nat, j: nat)
    requires SoundText(t) && Initial(t, s0)
    ensures var commits := Run(t, s0, es).past.commits;
            i < |commits| && j < |commits| && commits[i].epoch == commits[j].epoch ==>
              SameCommit(commits[i], commits[j])
  {
    Reachable(t, s0, es);
  }

  /** A commit is of no block at all exactly if no defined block was locked in its epoch.  Even then
      it has more than f precommits. */
  lemma UndefinedCommits(t: Texts, s0: State, es: seq<Event>, i: nat)
    requires SoundText(t) && Initial(t, s0) && i < |Run(t, s0, es).past.commits|
    ensures var h := Run(t, s0, es).past;
            && |h.commits[i].preCommits| > h.commits[i].f
            && (h.commits[i].block == Undef <==>
                  forall j :: 0 <= j < |h.locks| && h.locks[j].epoch == h.commits[i].epoch ==>
                    h.locks[j].block == Undef)
  {
    Reachable(t, s0, es);
    var h := Run(t, s0, es).past;
    if h.commits[i].block != Undef {
      assert LockedIn(h.locks, h.commits[i].epoch, h.commits[i].round, h.commits[i].block);
    }
  }

  /** Once an epoch has committed, no event moves the committed height or block before the next
      reset.  A block message delivered again overwrites the parent with the block itself. */
  lemma Redelivery(t: Texts, s0: State, es: seq<Event>, i: nat, e: Event)
    requires SoundText(t) && Initial(t, s0)
    requires var s := Run(t, s0, es); i < |s.past.commits| && s.past.commits[i].epoch == s.past.epoch
    ensures var s := Run(t, s0, es);
            var r := Next(t, s, e);
            r.past.epoch == s.past.epoch ==>
              r.tip == if r.past.commits == s.past.commits then s.tip else s.tip.(parent := s.tip.block)
  {
    Reachable(t, s0, es);
    RedeliveryStep(t, Run(t, s0, es), i, e);
  }

  lemma RedeliveryStep(t: Texts, s: State, i: nat, e: Event)
    requires EpochInv(s) && i < |s.past.commits| && s.past.commits[i].epoch == s.past.epoch
    ensures var r := Next(t, s, e);
            r.past.epoch == s.past.epoch ==>
              r.tip == if r.past.commits == s.past.commits then s.tip else s.tip.(parent := s.tip.block)
  {
    assert Shows(s.tip, s.prop);
    MovesNext(t, s, e);
    CommitTip(t, s, e);
  }

  /** The tip after a commit. */
  lemma CommitTip(t: Texts, s: State, e: Event)
    ensures var r := Next(t, s, e);
            r.past.commits != s.past.commits ==>
              r.tip == s.tip.(height := s.prop.height, parent := s.tip.block, block := s.prop.lockedValue)
  {
    match e
    case Tick(p, env) => StartFrame(t, s.(tip := s.tip.(proposer := p)), false, env);
    case PrecommitTimeout(env) => StartFrame(t, s.(timers := s.timers.(precommit := false)), true, env);
    case _ =>
  }

  // --------------------------------------------------------------------------------------------
  // The delayed broadcast
  // --------------------------------------------------------------------------------------------

  /** What a broadcast that fires now announces. */
  function Announcement(t: Texts, s: State): Msg {
    BlockMsg(s.prop.height, s.prop.lockedRound, t.str(s.prop.lockedValue))
  }

  /** The voters whose recorded vote is for exactly what the block message announces. */
  function Backers(votes: map<Peer, Vote>, m: Msg): set<Peer>
    requires m.BlockMsg?
  {
    set p | p in votes && votes[p].height == m.height && votes[p].round == m.round && votes[p].block == m.cid
  }

  /** The broadcast that fires announces what is locked at that moment.  More than f recorded
      precommits carry exactly the height, round and CID it announces, exactly if the committing
      step was entered in this epoch and what is locked is what is being voted on.  Having been
      scheduled in this epoch gives the first of these, not the second. */
  lemma BroadcastBacked(t: Texts, s0: State, es: seq<Event>)
    requires SoundText(t) && Initial(t, s0) && Run(t, s0, es).timers.pending > 0
    ensures var s := Run(t, s0, es);
            var m := Announcement(t, s);
            && Next(t, s, Broadcast(true)).past.log == WithSent(s, s.past.log, m, true)
            && (|Backers(s.prop.preCommits, m)| > s.prop.f <==>
                  s.prop.sbDone && s.prop.lockedValue == s.prop.block && s.prop.lockedRound == s.prop.round)
            && (s.past.epoch in s.past.scheduled ==> s.prop.sbDone)
  {
    Reachable(t, s0, es);
    var s := Run(t, s0, es);
    BroadcastSays(t, s);
    BackersAll(t, s);
    ScheduledNow(s);
  }

  lemma BroadcastSays(t: Texts, s: State)
    requires s.timers.pending > 0
    ensures Next(t, s, Broadcast(true)).past.log == WithSent(s, s.past.log, Announcement(t, s), true)
  {
  }

  lemma ScheduledNow(s: State)
    requires ScheduleInv(s)
    ensures s.past.epoch in s.past.scheduled ==> s.prop.sbDone
  {
    if s.past.epoch in s.past.scheduled {
      var i :| 0 <= i < |s.past.scheduled| && s.past.scheduled[i] == s.past.epoch;
    }
  }

  lemma BackersAll(t: Texts, s: State)
    requires SoundText(t) && RoundInv(t, s)
    ensures |Backers(s.prop.preCommits, Announcement(t, s))| > s.prop.f <==>
            s.prop.sbDone && s.prop.lockedValue == s.prop.block && s.prop.lockedRound == s.prop.round
  {
    var r := s.prop;
    assert |r.preCommits.Keys| == |r.preCommits|;
    assert Backers(r.preCommits, Announcement(t, s)) ==
           if r.lockedValue == r.block && r.lockedRound == r.round then r.preCommits.Keys else {};
  }

  /** What is locked, if it is a block, is what is being voted on; so the announcement of a defined
      block is backed exactly if the committing step was entered in this epoch. */
  lemma DefinedBroadcastBacked(t: Texts, s0: State, es: seq<Event>)
    requires SoundText(t) && Initial(t, s0) && Run(t, s0, es).timers.pending > 0
    requires Run(t, s0, es).prop.lockedValue != Undef
    ensures var s := Run(t, s0, es);
            |Backers(s.prop.preCommits, Announcement(t, s))| > s.prop.f <==> s.prop.sbDone
  {
    Reachable(t, s0, es);
    BroadcastBacked(t, s0, es);
  }

  // --------------------------------------------------------------------------------------------
  // The votes demanded
  // --------------------------------------------------------------------------------------------

  /** The values that `startRound` can leave in f: none before the node has led, then a quorum. */
  predicate Demanded(f: nat) {
    f == 0 || f % 2 == 1
  }

  ghost predicate DemandInv(s: State) {
    Demanded(s.prop.f) && forall i :: 0 <= i < |s.past.commits| ==> Demanded(s.past.commits[i].f)
  }

  lemma DemandStep(t: Texts, s: State, e: Event)
    requires Demanded(s.prop.f)
    ensures Demanded(Next(t, s, e).prop.f)
  {
    match e
    case Tick(p, env) => DemandStart(t, s.(tip := s.tip.(proposer := p)), false, env);
    case PrecommitTimeout(env) => DemandStart(t, s.(timers := s.timers.(precommit := false)), true, env);
    case Receive(from, msg, valid, sent) => ReceiveKeepsDemand(t, s, from, msg, valid, sent);
    case ProposeTimeout(sent) => assert OnProposeTimeout(s, sent).prop.f == s.prop.f;
    case PrevoteTimeout(sent) => assert OnPrevoteTimeout(s, sent).prop.f == s.prop.f;
    case BlockTimeout =>
    case Broadcast(sent) => assert Enabled(s, e) ==> OnBroadcast(t, s, sent).prop == s.prop;
  }

  lemma ReceiveKeepsDemand(t: Texts, s: State, from: Peer, msg: Msg, valid: bool, sent: bool)
    ensures OnReceive(t, s, from, msg, valid, sent).prop.f == s.prop.f
  {
    if msg.VoteMsg? && msg.vote.kind == PreCommit {
      PreCommitFrame(s, from, msg.vote);
    }
  }

  lemma DemandStart(t: Texts, s: State, inc: bool, env: RoundEnv)
    requires Demanded(s.prop.f)
    ensures Demanded(StartRound(t, s, inc, env).prop.f)
  {
    var o := s.(prop := Opened(s, inc), timers := s.timers.(prevote := true), past := NextEpoch(s.past));
    assert o.prop.f == s.prop.f;
    LeadDemand(o, env);
  }

  lemma LeadDemand(s: State, env: RoundEnv)
    requires Demanded(s.prop.f)
    ensures Demanded(LeadProp(s, env).f)
  {
    if Announced(s, env) {
      var m := |Others(env.nodes.value, s.self)|;
      assert LeadProp(s, env).f == Quorum(m) == (m / 3) * 2 + 1;
    }
  }

  lemma {:induction false} DemandsRun(t: Texts, s0: State, es: seq<Event>)
    requires DemandInv(s0)
    ensures DemandInv(Run(t, s0, es))
  {
    if es != [] {
      var s := Run(t, s0, es[..|es| - 1]);
      DemandsRun(t, s0, es[..|es| - 1]);
      DemandStep(t, s, es[|es| - 1]);
      TipStep(t, s, es[|es| - 1]);
    }
  }

  lemma DemandsInitial(t: Texts, s: State)
    requires Initial(t, s)
    ensures DemandInv(s)
  {
    var b, proposer, env :| IsBoot(b) && s == OnTick(t, b, proposer, env);
    DemandStep(t, b, Tick(proposer, env));
    TipStep(t, b, Tick(proposer, env));
  }

  /** Whatever number of votes a commit was made on, it is one of these. */
  lemma VotesDemanded(t: Texts, s0: State, es: seq<Event>)
    requires Initial(t, s0)
    ensures DemandInv(Run(t, s0, es))
  {
    DemandsInitial(t, s0);
    DemandsRun(t, s0, es);
  }
}
