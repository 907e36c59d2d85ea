/** The consensus engine as an object: its handlers update the two states, arm and stop timers and
    send messages, each exactly as the round machine says.

    The committed state, the proposal state and the timers are structs held by the object; their
    fields are assigned one after the other.  `Handle` says what a caller can rely on. */
module ConsensusNode {
  import opened Bytes
  import opened Objects
  import opened Rounds
  import opened RoundTheorems
  import opened Guarantees
  import opened Quorums

  class Consensus {
    const texts: Texts
    const self: Peer
    const canSign: bool

    var state: Tip
    var prop: Round
    var timers: Timers

    ghost var past: History

    ghost function Snapshot(): State
      reads this
    {
      State(self, canSign, state, prop, timers, past)
    }

    /** The invariant of every run, and CID texts that can be told apart. */
    ghost predicate Valid()
      reads this
    {
      SoundText(texts) && Inv(texts, Snapshot())
    }

    constructor (texts: Texts, self: Peer, canSign: bool, height: nat, head: Cid, parent: Cid)
      ensures this.texts == texts && Snapshot() == Boot(self, canSign, height, head, parent)
      ensures SoundText(texts) ==> Valid()
    {
      this.texts, this.self, this.canSign := texts, self, canSign;
      state := Tip([], height, head, parent);
      prop := Round(false, 0, 0, Propose, Undef, 0, map[], map[], Undef, 0, false, false, false);
      timers := Timers(false, false, false, false, 0);
      past := History(0, [], {}, {}, [], [], []);
      new;
      InvBoot(texts, Snapshot());
    }

    /** `sendMsg` and the callers that build its message. */
    method SendMsg(m: Msg, sent: bool) returns (ok: bool)
      modifies this`past
      ensures ok == SendOk(old(Snapshot()), sent)
      ensures past == Logged(old(Snapshot()), m, sent)
    {
      if !canSign {
        return true;
      }
      if sent {
        past := past.(log := past.log + [Sent(past.epoch, m)]);
      }
      ok := sent;
    }

    method SendVote(kind: VoteKind, value: Text, sent: bool) returns (ok: bool)
      modifies this`past
      ensures ok == SendOk(old(Snapshot()), sent)
      ensures past == Logged(old(Snapshot()), OwnVote(old(Snapshot()), kind, value), sent)
    {
      ok := SendMsg(VoteMsg(Vote(kind, prop.height, prop.round, value, self)), sent);
    }

    /** The common part of `startRound` and `onNewRound`. */
    method ClearRound()
      modifies this`prop, this`past
      ensures prop == Cleared(old(prop)) && past == NextEpoch(old(past))
    {
      prop := prop.(lockedRound := 0, lockedValue := Undef);
      prop := prop.(step := Propose);
      prop := prop.(preVotes := map[], preCommits := map[]);
      prop := prop.(pvDone := false, pcDone := false, sbDone := false);
      past := past.(epoch := past.epoch + 1);
    }

    /** `startRound`.  The node list is the store's, without duplicates. */
    method StartRound(inc: bool, env: RoundEnv)
      requires env.nodes.Some? ==> NoDuplicates(env.nodes.value)
      modifies this`prop, this`timers, this`past
      ensures Snapshot() == Rounds.StartRound(texts, old(Snapshot()), inc, env)
      ensures prop.round == if inc then (old(prop.round) + 1) % TwoTo32 else 1
      ensures prop.height == (state.height + 1) % TwoTo64 && prop.amProposer == (state.proposer == self)
    {
      ClearRound();
      prop := prop.(amProposer := state.proposer == self);
      prop := prop.(height := (state.height + 1) % TwoTo64);
      if inc {
        prop := prop.(round := (prop.round + 1) % TwoTo32);
        prop := prop.(step := Prevote);
      } else {
        prop := prop.(round := 1, block := Undef);
      }
      assert prop == Opened(old(Snapshot()), inc);
      if !prop.amProposer {
        if prop.block == Undef && prop.round > 1 {
          prop := prop.(step := Propose);
        }
        timers := timers.(propose := true);
        return;
      }
      timers := timers.(prevote := true);
      LeadRound(env);
    }

    /** The rest of `startRound`, for the proposer. */
    method LeadRound(env: RoundEnv)
      requires env.nodes.Some? ==> NoDuplicates(env.nodes.value)
      modifies this`prop, this`past
      ensures Snapshot() == Lead(texts, old(Snapshot()), env)
    {
      ghost var s := Snapshot();
      var ok := SendMsg(NewRound(prop.height, prop.round), env.newRoundSent);
      if !ok || env.nodes.None? {
        return;
      }
      ProposeBlock(env, s);
    }

    method ProposeBlock(env: RoundEnv, ghost s: State)
      requires env.nodes.Some? && NoDuplicates(env.nodes.value) && Announced(s, env)
      requires self == s.self && canSign == s.canSign && prop == s.prop
      requires past == Logged(s, NewRound(s.prop.height, s.prop.round), env.newRoundSent)
      modifies this`prop, this`past
      ensures prop == LeadProp(s, env) && past == LeadPast(texts, s, env)
    {
      var ready := PrepareBlock(env, s);
      ghost var built := Snapshot();
      if ready {
        SendProposal(env.proposalSent);
      }
      Proposes(texts, s, env, built, ready, prop, past);
    }

    /** Count the votes required, and have a block to propose. */
    method PrepareBlock(env: RoundEnv, ghost s: State) returns (ready: bool)
      requires env.nodes.Some? && NoDuplicates(env.nodes.value) && Announced(s, env)
      requires self == s.self && canSign == s.canSign && prop == s.prop
      requires past == Logged(s, NewRound(s.prop.height, s.prop.round), env.newRoundSent)
      modifies this`prop, this`past
      ensures ready == ReachesProposal(s, env) && past == LeadBase(s, env)
      ensures prop == s.prop.(f := Quorum(|Others(env.nodes.value, s.self)|), block := LeadBlock(s, env))
    {
      var required := CountOthers(env.nodes.value);
      prop := prop.(f := required);
      ready := BuildBlock(env.build);
    }

    method SendProposal(sent: bool)
      modifies this`prop, this`past
      ensures var s := old(Snapshot());
              && prop == s.prop.(step := if SendOk(s, sent) then Prevote else s.prop.step)
              && past == Logged(s, Proposal(s.prop.height, s.prop.round, texts.str(s.prop.block)), sent)
    {
      var ok := SendMsg(Proposal(prop.height, prop.round, texts.str(prop.block)), sent);
      if ok {
        prop := prop.(step := Prevote);
      }
    }

    /** Build and upload a block, unless there is one already. */
    method BuildBlock(build: Build) returns (ready: bool)
      modifies this`prop, this`past
      ensures ready == (old(prop.block) != Undef || build.Stored? || build == NothingToPropose)
      ensures var stored := old(prop.block) == Undef && build.Stored?;
              && prop == old(prop).(block := if stored then build.cid else old(prop.block))
              && past == if stored then old(past).(built := old(past.built) + {build.cid}) else old(past)
    {
      if prop.block == Undef {
        match build
        case BuildFailed => return false;
        case StoreFailed => return false;
        case NothingToPropose =>
        case Stored(c) =>
          prop := prop.(block := c);
          past := past.(built := past.built + {c});
      }
      ready := true;
    }

    method CountOthers(nodes: seq<Peer>) returns (required: nat)
      requires NoDuplicates(nodes)
      ensures required == Quorum(|Others(nodes, self)|)
    {
      var list := new Peer[|nodes|](i requires 0 <= i < |nodes| => nodes[i]);
      assert list[..] == nodes;
      var m := RemoveSelf(list, self);
      required := (m / 3) * 2 + 1;
    }

    /** `watchProposer`: the beacon has picked a proposer. */
    method OnTick(p: Peer, env: RoundEnv)
      requires env.nodes.Some? ==> NoDuplicates(env.nodes.value)
      modifies this
      ensures Snapshot() == Rounds.OnTick(texts, old(Snapshot()), p, env)
    {
      state := state.(proposer := p);
      StartRound(false, env);
    }

    method OnNewRound(from: Peer, height: nat, round: nat)
      modifies this`prop, this`timers, this`past
      ensures Snapshot() == Rounds.OnNewRound(old(Snapshot()), from, height, round)
    {
      if from != state.proposer {
        return;
      }
      ClearRound();
      prop := prop.(height := height);
      prop := prop.(round := round);
      timers := timers.(propose := true);
    }

    /** `validate`; `valid` is whether the block could be fetched and passed the validator. */
    method ValidateBlock(value: Text, valid: bool) returns (c: Cid)
      ensures c == Validate(texts, value, valid)
    {
      if value == texts.str(Undef) {
        return Undef;
      }
      var parsed := texts.parse(value);
      if parsed.None? || !valid {
        return Undef;
      }
      c := parsed.value;
    }

    method OnProposal(from: Peer, value: Text, valid: bool, sent: bool)
      modifies this`prop, this`timers, this`past
      ensures Snapshot() == Rounds.OnProposal(texts, old(Snapshot()), from, value, valid, sent)
    {
      if from != state.proposer || prop.step != Propose {
        return;
      }
      var bc := ValidateBlock(value, valid);
      past := past.(validated := past.validated + {bc});
      if prop.pvDone {
        return;
      }
      SendPrevote(bc, value, sent);
    }

    /** The body of `pvOnce` in `onProposal`. */
    method SendPrevote(bc: Cid, value: Text, sent: bool)
      requires prop.step == Propose
      modifies this`prop, this`timers, this`past
      ensures var s, ok := old(Snapshot()), SendOk(old(Snapshot()), sent);
              && prop == s.prop.(block := bc, pvDone := true, step := if ok then Prevote else Propose)
              && timers == s.timers.(propose := false, prevote := s.timers.prevote || ok)
              && past == Logged(s, OwnVote(s, PreVote, if bc == Undef then texts.str(Undef) else value), sent)
    {
      prop := prop.(block := bc, pvDone := true);
      timers := timers.(propose := false);
      var ok;
      if bc == Undef {
        ok := SendVote(PreVote, texts.str(Undef), sent);
      } else {
        ok := SendVote(PreVote, value, sent);
      }
      if ok {
        timers := timers.(prevote := true);
        prop := prop.(step := Prevote);
      }
    }

    method OnVote(from: Peer, vote: Vote, sent: bool)
      modifies this`prop, this`timers, this`past
      ensures Snapshot() == Rounds.OnVote(texts, old(Snapshot()), from, vote, sent)
    {
      if from == state.proposer {
        return;
      } else if vote.height != prop.height || vote.block != texts.str(prop.block) || vote.round != prop.round {
        return;
      }
      match vote.kind
      case PreVote => OnPreVote(from, vote, sent);
      case PreCommit => OnPreCommit(from, vote);
      case ProposalVote =>
    }

    method OnPreVote(from: Peer, vote: Vote, sent: bool)
      modifies this`prop, this`timers, this`past
      ensures Snapshot() == Rounds.OnPreVote(texts, old(Snapshot()), from, vote, sent)
    {
      if prop.step != Prevote {
        return;
      }
      if prop.amProposer {
        timers := timers.(precommit := true);
      }
      prop := prop.(preVotes := prop.preVotes[from := vote]);
      if |prop.preVotes| > prop.f && !prop.pcDone {
        TakeLock(sent);
      }
    }

    /** The body of `pcOnce` in `onPreVote`. */
    method TakeLock(sent: bool)
      modifies this`prop, this`timers, this`past
      ensures var s := old(Snapshot());
              && prop == Locked(s.prop)
              && timers == s.timers.(prevote := false, precommit := s.timers.precommit || SendOk(s, sent))
              && past == Logged(s, OwnVote(s, PreCommit, texts.str(s.prop.block)), sent)
                         .(locks := s.past.locks + [LockOf(s, s.prop)])
    {
      timers := timers.(prevote := false);
      past := past.(locks := past.locks + [LockOf(Snapshot(), prop)]);
      prop := prop.(step := Precommit);
      prop := prop.(lockedValue := prop.block, lockedRound := prop.round, pcDone := true);
      var ok := SendVote(PreCommit, texts.str(prop.block), sent);
      if ok {
        timers := timers.(precommit := true);
      }
    }

    method OnPreCommit(from: Peer, vote: Vote)
      modifies this`prop, this`timers, this`past
      ensures Snapshot() == Rounds.OnPreCommit(old(Snapshot()), from, vote)
    {
      if prop.step != Precommit {
        return;
      }
      if prop.amProposer {
        timers := timers.(precommit := true);
      }
      prop := prop.(preCommits := prop.preCommits[from := vote]);
      if |prop.preCommits| > prop.f && !prop.sbDone {
        timers := timers.(precommit := false);
        prop := prop.(step := Committing, sbDone := true);
        if prop.amProposer {
          timers := timers.(pending := timers.pending + 1);
          past := past.(scheduled := past.scheduled + [past.epoch]);
        } else {
          timers := timers.(block := true);
        }
      }
    }

    method OnBlock(from: Peer, round: nat, cid: Text)
      modifies this`state, this`timers, this`past
      ensures Snapshot() == Rounds.OnBlock(texts, old(Snapshot()), from, round, cid)
    {
      if from != state.proposer || prop.step != Committing || cid != texts.str(prop.lockedValue)
        || prop.lockedRound != round {
        return;
      }
      past := past.(commits := past.commits + [CommitOf(Snapshot())]);
      timers := timers.(block := false);
      state := state.(height := prop.height);
      state := state.(parent := state.block);
      state := state.(block := prop.lockedValue);
    }

    /** The function that fires when the grace period is over. */
    method FireBroadcast(sent: bool)
      requires timers.pending > 0
      modifies this
      ensures Snapshot() == OnBroadcast(texts, old(Snapshot()), sent)
    {
      timers := timers.(pending := timers.pending - 1);
      var m := BlockMsg(prop.height, prop.lockedRound, texts.str(prop.lockedValue));
      if !sent {
        return;
      }
      var ok := SendMsg(m, true);
      OnBlock(self, m.round, m.cid);
    }

    method OnTimeoutProposal(sent: bool)
      requires timers.propose
      modifies this`prop, this`timers, this`past
      ensures Snapshot() == OnProposeTimeout(old(Snapshot()), sent)
    {
      timers := timers.(propose := false);
      if prop.height != state.height && prop.step != Propose {
        return;
      }
      prop := prop.(step := Prevote);
      if !prop.pvDone {
        var ok := SendVote(PreVote, Blank, sent);
        timers := timers.(prevote := true);
        prop := prop.(pvDone := true);
      }
    }

    method OnTimeoutPrevote(sent: bool)
      requires timers.prevote
      modifies this`prop, this`timers, this`past
      ensures Snapshot() == OnPrevoteTimeout(old(Snapshot()), sent)
    {
      timers := timers.(prevote := false);
      if prop.height != state.height && prop.step != Prevote {
        return;
      }
      prop := prop.(step := Precommit);
      if !prop.pcDone {
        var ok := SendVote(PreCommit, Blank, sent);
        timers := timers.(precommit := true);
        prop := prop.(pcDone := true);
      }
    }

    method OnTimeoutPrecommit(env: RoundEnv)
      requires timers.precommit && (env.nodes.Some? ==> NoDuplicates(env.nodes.value))
      modifies this`prop, this`timers, this`past
      ensures Snapshot() == OnPrecommitTimeout(texts, old(Snapshot()), env)
    {
      timers := timers.(precommit := false);
      StartRound(true, env);
    }

    /** `onConsensusMsg`: a message whose signature has been checked goes to its handler. */
    method OnConsensusMsg(from: Peer, msg: Msg, valid: bool, sent: bool)
      modifies this
      ensures Snapshot() == OnReceive(texts, old(Snapshot()), from, msg, valid, sent)
    {
      match msg
      case NewRound(h, r) => OnNewRound(from, h, r);
      case Proposal(_, _, x) => OnProposal(from, x, valid, sent);
      case VoteMsg(v) => OnVote(from, v, sent);
      case BlockMsg(_, r, c) => OnBlock(from, r, c);
    }

    /** Whatever happens next, the object takes the machine's step, keeps its invariant and does only
        what is guaranteed for such an event. */
    method Handle(e: Event)
      requires Valid()
      requires e.Tick? || e.PrecommitTimeout? ==> e.env.nodes.Some? ==> NoDuplicates(e.env.nodes.value)
      modifies this
      ensures Snapshot() == Next(texts, old(Snapshot()), e)
      ensures Valid() && Guaranteed(texts, old(Snapshot()), e, Snapshot())
    {
      ghost var s := Snapshot();
      Dispatch(e);
      InvNext(texts, s, e);
      NextGuarantee(texts, s, e);
    }

    /** The timer loop, the message loop and the beacon loop call the handlers. */
    method Dispatch(e: Event)
      requires e.Tick? || e.PrecommitTimeout? ==> e.env.nodes.Some? ==> NoDuplicates(e.env.nodes.value)
      modifies this
      ensures Snapshot() == Next(texts, old(Snapshot()), e)
    {
      match e
      case Tick(p, env) => OnTick(p, env);
      case Receive(from, msg, valid, sent) => OnConsensusMsg(from, msg, valid, sent);
      case ProposeTimeout(sent) =>
        if timers.propose {
          OnTimeoutProposal(sent);
        }
      case PrevoteTimeout(sent) =>
        if timers.prevote {
          OnTimeoutPrevote(sent);
        }
      case PrecommitTimeout(env) =>
        if timers.precommit {
          OnTimeoutPrecommit(env);
        }
      case BlockTimeout => timers := timers.(block := false);
      case Broadcast(sent) =>
        if timers.pending > 0 {
          FireBroadcast(sent);
        }
    }
  }

  /** Building and then proposing is what `Lead` says. */
  lemma Proposes(t: Texts, s: State, env: RoundEnv, built: State, ready: bool, prop: Round, past: History)
    requires Announced(s, env) && built.self == s.self && built.canSign == s.canSign
    requires ready == ReachesProposal(s, env)
    requires built.prop == s.prop.(f := Quorum(|Others(env.nodes.value, s.self)|), block := LeadBlock(s, env))
    requires built.past == LeadBase(s, env)
    requires prop == if ready && SendOk(built, env.proposalSent) then built.prop.(step := Prevote) else built.prop
    requires past == if ready
                     then Logged(built, Proposal(s.prop.height, s.prop.round, t.str(built.prop.block)),
                                 env.proposalSent)
                     else built.past
    ensures prop == LeadProp(s, env) && past == LeadPast(t, s, env)
  {
  }
}
