/** One node's consensus rounds as a state machine on values.

    Each handler of the consensus engine is an atomic step: a beacon tick, a received message, a
    timer that fires, or the delayed block broadcast.  What the handlers cannot decide alone (the
    verdict of the validator, whether a message could be published, the node list, the block that
    was built) comes with the event.

    The last group of fields of `State` is history: no handler reads it.  An epoch is the time
    between two resets of the proposal state.
 */
module Rounds {
  import opened Bytes
  import opened Objects

  type Peer = Bytes
  type Text = Bytes

  const TwoTo32: nat := 0x1_0000_0000
  const TwoTo64: nat := 0x1_0000_0000_0000_0000

  /** CIDs in messages travel as text.  Several texts may parse to one CID (a CID can be written
      in more than one base); printing gives one of them. */
  datatype Texts = Texts(str: Cid -> Text, parse: Text -> Option<Cid>)

  const Blank: Text := []

  /** Printing is injective, never blank, and undone by parsing. */
  ghost predicate SoundText(t: Texts) {
    && (forall c, d :: t.str(c) == t.str(d) ==> c == d)
    && (forall c :: t.str(c) != Blank)
    && (forall c :: c != Undef ==> t.parse(t.str(c)) == Some(c))
  }

  /** The CID that a text in a vote stands for. */
  function Denotes(t: Texts, x: Text): Cid {
    if x == t.str(Undef) || t.parse(x).None? then Undef else t.parse(x).value
  }

  datatype Step = Propose | Prevote | Precommit | Committing

  datatype VoteKind = PreVote | PreCommit | ProposalVote

  datatype Vote = Vote(kind: VoteKind, height: nat, round: nat, block: Text, validator: Peer)

  datatype Msg =
    | NewRound(height: nat, round: nat)
    | Proposal(height: nat, round: nat, block: Text)
    | VoteMsg(vote: Vote)
    | BlockMsg(height: nat, round: nat, cid: Text)

  datatype Sent = Sent(epoch: nat, msg: Msg)

  /** A lock taken on a prevote quorum. */
  datatype Lock = Lock(epoch: nat, proposer: Peer, height: nat, round: nat, block: Cid, f: nat,
                       preVotes: map<Peer, Vote>)

  /** A block message acted upon. */
  datatype Commit = Commit(epoch: nat, proposer: Peer, height: nat, round: nat, block: Cid, f: nat,
                           preVotes: map<Peer, Vote>, preCommits: map<Peer, Vote>)

  /** The committed state. */
  datatype Tip = Tip(proposer: Peer, height: nat, block: Cid, parent: Cid)

  /** The proposal state. */
  datatype Round = Round(
    amProposer: bool, height: nat, round: nat, step: Step, block: Cid, f: nat,
    preVotes: map<Peer, Vote>, preCommits: map<Peer, Vote>, lockedValue: Cid, lockedRound: nat,
    pvDone: bool, pcDone: bool, sbDone: bool)

  /** The armed timers, and the block broadcasts that are waiting out the grace period. */
  datatype Timers = Timers(propose: bool, prevote: bool, precommit: bool, block: bool, pending: nat)

  datatype History = History(
    epoch: nat, log: seq<Sent>, built: set<Cid>, validated: set<Cid>,
    scheduled: seq<nat>, locks: seq<Lock>, commits: seq<Commit>)

  datatype State = State(self: Peer, canSign: bool, tip: Tip, prop: Round, timers: Timers, past: History)

  datatype Build = BuildFailed | NothingToPropose | StoreFailed | Stored(cid: Cid)

  /** What `startRound` gets from outside on the proposer's branch. */
  datatype RoundEnv = RoundEnv(newRoundSent: bool, nodes: Option<seq<Peer>>, build: Build, proposalSent: bool)

  datatype Event =
    | Tick(proposer: Peer, env: RoundEnv)
    | Receive(from: Peer, msg: Msg, valid: bool, sent: bool)
    | ProposeTimeout(sent: bool)
    | PrevoteTimeout(sent: bool)
    | PrecommitTimeout(env: RoundEnv)
    | BlockTimeout
    | Broadcast(sent: bool)

  /** The votes needed, less one, among `m` other nodes. */
  function Quorum(m: nat): nat {
    (m / 3) * 2 + 1
  }

  // --------------------------------------------------------------------------------------------
  // Handlers
  // --------------------------------------------------------------------------------------------

  /** `sendMsg` reports an error only if the message was signed and could not be published;
      without a signing key nothing is sent and nothing is reported. */
  predicate SendOk(s: State, sent: bool) {
    !s.canSign || sent
  }

  function WithSent(s: State, log: seq<Sent>, m: Msg, sent: bool): seq<Sent> {
    if s.canSign && sent then log + [Sent(s.past.epoch, m)] else log
  }

  function Logged(s: State, m: Msg, sent: bool): History {
    s.past.(log := WithSent(s, s.past.log, m, sent))
  }

  function OwnVote(s: State, kind: VoteKind, x: Text): Msg {
    VoteMsg(Vote(kind, s.prop.height, s.prop.round, x, s.self))
  }

  /** What `startRound` and `onNewRound` both clear. */
  function Cleared(r: Round): Round {
    r.(step := Propose, preVotes := map[], preCommits := map[], lockedValue := Undef, lockedRound := 0,
       pvDone := false, pcDone := false, sbDone := false)
  }

  function NextEpoch(h: History): History {
    h.(epoch := h.epoch + 1)
  }

  /** The proposal state with which `startRound` begins. */
  function Opened(s: State, inc: bool): Round {
    var r := Cleared(s.prop).(amProposer := s.tip.proposer == s.self, height := (s.tip.height + 1) % TwoTo64);
    if inc then r.(round := (r.round + 1) % TwoTo32, step := Prevote) else r.(round := 1, block := Undef)
  }

  function StartRound(t: Texts, s: State, inc: bool, env: RoundEnv): State {
    var r := Opened(s, inc);
    if r.amProposer then
      Lead(t, s.(prop := r, timers := s.timers.(prevote := true), past := NextEpoch(s.past)), env)
    else
      s.(prop := if r.block == Undef && r.round > 1 then r.(step := Propose) else r,
         timers := s.timers.(propose := true), past := NextEpoch(s.past))
  }

  /** The proposer's branch of `startRound`: announce the round, count the other nodes, make a
      block unless there is one already, and propose it.  Each failure ends the round's start. */
  function Lead(t: Texts, s: State, env: RoundEnv): State {
    s.(prop := LeadProp(s, env), past := LeadPast(t, s, env))
  }

  predicate Announced(s: State, env: RoundEnv) {
    SendOk(s, env.newRoundSent) && env.nodes.Some?
  }

  predicate ReachesProposal(s: State, env: RoundEnv) {
    Announced(s, env) && (s.prop.block != Undef || env.build.Stored? || env.build == NothingToPropose)
  }

  predicate BuildsBlock(s: State, env: RoundEnv) {
    Announced(s, env) && s.prop.block == Undef && env.build.Stored?
  }

  function LeadBlock(s: State, env: RoundEnv): Cid {
    if BuildsBlock(s, env) then env.build.cid else s.prop.block
  }

  function LeadProp(s: State, env: RoundEnv): Round {
    if !Announced(s, env) then s.prop
    else
      s.prop.(f := Quorum(|Others(env.nodes.value, s.self)|), block := LeadBlock(s, env),
              step := if ReachesProposal(s, env) && SendOk(s, env.proposalSent) then Prevote else s.prop.step)
  }

  /** The round announced and the block built. */
  function LeadBase(s: State, env: RoundEnv): History {
    var announced := Logged(s, NewRound(s.prop.height, s.prop.round), env.newRoundSent);
    if BuildsBlock(s, env) then announced.(built := announced.built + {env.build.cid}) else announced
  }

  function LeadPast(t: Texts, s: State, env: RoundEnv): History {
    var base := LeadBase(s, env);
    if ReachesProposal(s, env)
    then base.(log := WithSent(s, base.log, Proposal(s.prop.height, s.prop.round, t.str(LeadBlock(s, env))),
      env.proposalSent))
    else base
  }

  function Others(nodes: seq<Peer>, self: Peer): set<Peer> {
    (set p | p in nodes) - {self}
  }

  function OnTick(t: Texts, s: State, proposer: Peer, env: RoundEnv): State {
    StartRound(t, s.(tip := s.tip.(proposer := proposer)), false, env)
  }

  function OnNewRound(s: State, from: Peer, height: nat, round: nat): State {
    if from != s.tip.proposer then s
    else s.(prop := Cleared(s.prop).(height := height, round := round),
            timers := s.timers.(propose := true), past := NextEpoch(s.past))
  }

  /** `validate`: the undefined CID for anything that does not pass. */
  function Validate(t: Texts, x: Text, valid: bool): Cid {
    if x == t.str(Undef) || t.parse(x).None? || !valid then Undef else t.parse(x).value
  }

  /** The text that a prevote carries: the proposal's own, or the undefined CID's. */
  function PrevoteText(t: Texts, x: Text, valid: bool): Text {
    if Validate(t, x, valid) == Undef then t.str(Undef) else x
  }

  /** The proposal's own height and round are not looked at. */
  function OnProposal(t: Texts, s: State, from: Peer, x: Text, valid: bool, sent: bool): State {
    if from != s.tip.proposer || s.prop.step != Propose then s
    else
      var v := s.(past := s.past.(validated := s.past.validated + {Validate(t, x, valid)}));
      if s.prop.pvDone then v
      else
        v.(prop := s.prop.(block := Validate(t, x, valid), pvDone := true,
                           step := if SendOk(s, sent) then Prevote else Propose),
           timers := s.timers.(propose := false, prevote := s.timers.prevote || SendOk(s, sent)),
           past := Logged(v, OwnVote(v, PreVote, PrevoteText(t, x, valid)), sent))
  }

  function OnVote(t: Texts, s: State, from: Peer, vote: Vote, sent: bool): State {
    if from == s.tip.proposer || vote.height != s.prop.height || vote.block != t.str(s.prop.block)
      || vote.round != s.prop.round
    then s
    else match vote.kind
      case PreVote => OnPreVote(t, s, from, vote, sent)
      case PreCommit => OnPreCommit(s, from, vote)
      case ProposalVote => s
  }

  /** This prevote completes the quorum, and no precommit has been sent yet in this epoch. */
  predicate Locks(r: Round, from: Peer, vote: Vote) {
    |r.preVotes[from := vote]| > r.f && !r.pcDone
  }

  function OnPreVote(t: Texts, s: State, from: Peer, vote: Vote, sent: bool): State {
    if s.prop.step != Prevote then s
    else if !Locks(s.prop, from, vote) then
      s.(prop := WithPreVote(s.prop, from, vote), timers := LeaderWaits(s))
    else
      s.(prop := Locked(WithPreVote(s.prop, from, vote)),
         timers := LeaderWaits(s).(prevote := false, precommit := s.timers.precommit || s.prop.amProposer
           || SendOk(s, sent)),
         past := Logged(s, OwnVote(s, PreCommit, t.str(s.prop.block)), sent)
                 .(locks := s.past.locks + [LockOf(s, WithPreVote(s.prop, from, vote))]))
  }

  function WithPreVote(r: Round, from: Peer, vote: Vote): Round {
    r.(preVotes := r.preVotes[from := vote])
  }

  function LeaderWaits(s: State): Timers {
    s.timers.(precommit := s.timers.precommit || s.prop.amProposer)
  }

  function Locked(r: Round): Round {
    r.(step := Precommit, lockedValue := r.block, lockedRound := r.round, pcDone := true)
  }

  function LockOf(s: State, r: Round): Lock {
    Lock(s.past.epoch, s.tip.proposer, r.height, r.round, r.block, r.f, r.preVotes)
  }

  function WithPreCommit(r: Round, from: Peer, vote: Vote): Round {
    r.(preCommits := r.preCommits[from := vote])
  }

  predicate Completes(r: Round, from: Peer, vote: Vote) {
    |r.preCommits[from := vote]| > r.f && !r.sbDone
  }

  /** The proposer schedules the delayed broadcast; the others wait for the block message. */
  function OnPreCommit(s: State, from: Peer, vote: Vote): State {
    if s.prop.step != Precommit then s
    else if !Completes(s.prop, from, vote) then
      s.(prop := WithPreCommit(s.prop, from, vote), timers := LeaderWaits(s))
    else
      s.(prop := WithPreCommit(s.prop, from, vote).(step := Committing, sbDone := true),
         timers := CommittingTimers(s),
         past := s.past.(scheduled := CommittingSchedule(s)))
  }

  function CommittingTimers(s: State): Timers {
    if s.prop.amProposer then s.timers.(precommit := false, pending := s.timers.pending + 1)
    else s.timers.(precommit := false, block := true)
  }

  function CommittingSchedule(s: State): seq<nat> {
    if s.prop.amProposer then s.past.scheduled + [s.past.epoch] else s.past.scheduled
  }

  /** The block message's own height is not looked at. */
  predicate BlockAccepted(t: Texts, s: State, from: Peer, round: nat, cid: Text) {
    && from == s.tip.proposer && s.prop.step == Committing
    && cid == t.str(s.prop.lockedValue) && s.prop.lockedRound == round
  }

  function OnBlock(t: Texts, s: State, from: Peer, round: nat, cid: Text): State {
    if !BlockAccepted(t, s, from, round, cid) then s
    else
      s.(tip := s.tip.(height := s.prop.height, parent := s.tip.block, block := s.prop.lockedValue),
         timers := s.timers.(block := false),
         past := s.past.(commits := s.past.commits + [CommitOf(s)]))
  }

  function CommitOf(s: State): Commit {
    var p := s.prop;
    Commit(s.past.epoch, s.tip.proposer, p.height, p.lockedRound, p.lockedValue, p.f, p.preVotes, p.preCommits)
  }

  function OnProposeTimeout(s: State, sent: bool): State {
    var x := s.(timers := s.timers.(propose := false));
    if s.prop.height != s.tip.height && s.prop.step != Propose then x
    else if s.prop.pvDone then x.(prop := x.prop.(step := Prevote))
    else
      x.(prop := x.prop.(step := Prevote, pvDone := true), timers := x.timers.(prevote := true),
         past := Logged(x, OwnVote(x, PreVote, Blank), sent))
  }

  function OnPrevoteTimeout(s: State, sent: bool): State {
    var x := s.(timers := s.timers.(prevote := false));
    if s.prop.height != s.tip.height && s.prop.step != Prevote then x
    else if s.prop.pcDone then x.(prop := x.prop.(step := Precommit))
    else
      x.(prop := x.prop.(step := Precommit, pcDone := true), timers := x.timers.(precommit := true),
         past := Logged(x, OwnVote(x, PreCommit, Blank), sent))
  }

  /** The delayed part of `onPreCommit`: it reads the state of the moment at which it fires. */
  function OnBroadcast(t: Texts, s: State, sent: bool): State
    requires s.timers.pending > 0
  {
    var x := s.(timers := s.timers.(pending := s.timers.pending - 1));
    var m := BlockMsg(s.prop.height, s.prop.lockedRound, t.str(s.prop.lockedValue));
    if !sent then x
    else OnBlock(t, x.(past := Logged(x, m, true)), s.self, m.round, m.cid)
  }

  function OnReceive(t: Texts, s: State, from: Peer, msg: Msg, valid: bool, sent: bool): State {
    match msg
    case NewRound(h, r) => OnNewRound(s, from, h, r)
    case Proposal(_, _, x) => OnProposal(t, s, from, x, valid, sent)
    case VoteMsg(v) => OnVote(t, s, from, v, sent)
    case BlockMsg(_, r, c) => OnBlock(t, s, from, r, c)
  }

  function OnPrecommitTimeout(t: Texts, s: State, env: RoundEnv): State {
    StartRound(t, s.(timers := s.timers.(precommit := false)), true, env)
  }

  /** A timer fires only when it is armed, a broadcast only when one is waiting. */
  predicate Enabled(s: State, e: Event) {
    match e
    case ProposeTimeout(_) => s.timers.propose
    case PrevoteTimeout(_) => s.timers.prevote
    case PrecommitTimeout(_) => s.timers.precommit
    case BlockTimeout => s.timers.block
    case Broadcast(_) => s.timers.pending > 0
    case _ => true
  }

  function Next(t: Texts, s: State, e: Event): State {
    if !Enabled(s, e) then s
    else match e
      case Tick(p, env) => OnTick(t, s, p, env)
      case Receive(from, msg, valid, sent) => OnReceive(t, s, from, msg, valid, sent)
      case ProposeTimeout(sent) => OnProposeTimeout(s, sent)
      case PrevoteTimeout(sent) => OnPrevoteTimeout(s, sent)
      case PrecommitTimeout(env) => OnPrecommitTimeout(t, s, env)
      case BlockTimeout => s.(timers := s.timers.(block := false))
      case Broadcast(sent) => OnBroadcast(t, s, sent)
  }

  function Run(t: Texts, s: State, es: seq<Event>): State {
    if es == [] then s else Next(t, Run(t, s, es[..|es| - 1]), es[|es| - 1])
  }

  /** A node as it is set up, before its first round. */
  function Boot(self: Peer, canSign: bool, height: nat, head: Cid, parent: Cid): State {
    State(self, canSign, Tip([], height, head, parent),
          Round(false, 0, 0, Propose, Undef, 0, map[], map[], Undef, 0, false, false, false),
          Timers(false, false, false, false, 0),
          History(0, [], {}, {}, [], [], []))
  }

  predicate IsBoot(s: State) {
    s == Boot(s.self, s.canSign, s.tip.height, s.tip.block, s.tip.parent)
  }

  /** Runs begin with the first beacon tick; before it there are no vote tables. */
  ghost predicate Initial(t: Texts, s: State) {
    exists b, proposer, env :: IsBoot(b) && s == OnTick(t, b, proposer, env)
  }
}
