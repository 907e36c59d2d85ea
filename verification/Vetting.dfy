/** What stands behind everything a node votes for, locks or commits: events in which its own validator
    accepted the block, or in which it built the block itself. */
module Vetting {
  import opened Bytes
  import opened Objects
  import opened Rounds
  import opened RoundSafety
  import opened RoundRecords
  import opened RoundTheorems
  import opened Network

  /** A proposal from the proposer, taken in the propose step, whose text stands for c and which the
      validator accepts. */
  predicate TakesProposal(t: Texts, s: State, e: Event, c: Cid) {
    && e.Receive? && e.msg.Proposal? && e.from == s.tip.proposer && s.prop.step == Propose && e.valid
    && e.msg.block != t.str(Undef) && t.parse(e.msg.block) == Some(c)
  }

  /** The start of a round that this node leads without a block, in which it builds c. */
  predicate Builds(s: State, e: Event, c: Cid) {
    && OpensRound(s, e) && s.self == (if e.Tick? then e.proposer else s.tip.proposer)
    && (!s.canSign || e.env.newRoundSent) && e.env.nodes.Some? && e.env.build == Stored(c)
    && (e.Tick? || s.prop.block == Undef)
  }

  // --------------------------------------------------------------------------------------------
  // One step
  // --------------------------------------------------------------------------------------------

  lemma VettingStep(t: Texts, s: State, e: Event, c: Cid)
    requires c != Undef
    ensures var r := Next(t, s, e);
            && (c in r.past.validated <==> c in s.past.validated || TakesProposal(t, s, e, c))
            && (c in r.past.built <==> c in s.past.built || Builds(s, e, c))
  {
    match e
    case Tick(p, env) => VettingStart(t, s.(tip := s.tip.(proposer := p)), false, env, c);
    case PrecommitTimeout(env) => VettingStart(t, s.(timers := s.timers.(precommit := false)), true, env, c);
    case Receive(from, msg, valid, sent) => VettingReceive(t, s, from, msg, valid, sent, c);
    case _ =>
  }

  lemma VettingStart(t: Texts, s: State, inc: bool, env: RoundEnv, c: Cid)
    ensures var r := StartRound(t, s, inc, env);
            && r.past.validated == s.past.validated
            && (c in r.past.built <==>
                  c in s.past.built ||
                  (s.self == s.tip.proposer && (!s.canSign || env.newRoundSent) && env.nodes.Some? &&
                   env.build == Stored(c) && (!inc || s.prop.block == Undef)))
  {
    StartFrame(t, s, inc, env);
  }

  lemma VettingReceive(t: Texts, s: State, from: Peer, msg: Msg, valid: bool, sent: bool, c: Cid)
    requires c != Undef
    ensures var r := OnReceive(t, s, from, msg, valid, sent);
            && r.past.built == s.past.built
            && (c in r.past.validated <==>
                  c in s.past.validated || TakesProposal(t, s, Receive(from, msg, valid, sent), c))
  {
  }

  /** A proposal that the validator does not accept: nothing goes out but a prevote for no block, nothing
      counts as validated, and the block proposed becomes no block or stays. */
  lemma InvalidProposal(t: Texts, s: State, from: Peer, h: nat, n: nat, x: Text, sent: bool)
    ensures var r := Next(t, s, Receive(from, Proposal(h, n, x), false, sent));
            && (|| r.past.log == s.past.log
                || r.past.log == s.past.log + [Sent(s.past.epoch, OwnVote(s, PreVote, t.str(Undef)))])
            && r.past.validated <= s.past.validated + {Undef} && r.past.built == s.past.built
            && (r.prop.block == Undef || r.prop.block == s.prop.block)
            && r.past.locks == s.past.locks && r.tip == s.tip
  {
  }

  // --------------------------------------------------------------------------------------------
  // Runs
  // --------------------------------------------------------------------------------------------

  predicate WasAccepted(t: Texts, s: State, es: seq<Event>, c: Cid) {
    es != [] && (WasAccepted(t, s, es[..|es| - 1], c) || TakesProposal(t, Run(t, s, es[..|es| - 1]), es[|es| - 1], c))
  }

  predicate WasBuilt(t: Texts, s: State, es: seq<Event>, c: Cid) {
    es != [] && (WasBuilt(t, s, es[..|es| - 1], c) || Builds(Run(t, s, es[..|es| - 1]), es[|es| - 1], c))
  }

  /** What the history has as validated and built is what those events made so. */
  lemma {:induction false} VettedIff(t: Texts, s: State, es: seq<Event>, c: Cid)
    requires c != Undef && c !in s.past.validated && c !in s.past.built
    ensures c in Run(t, s, es).past.validated <==> WasAccepted(t, s, es, c)
    ensures c in Run(t, s, es).past.built <==> WasBuilt(t, s, es, c)
  {
    if es != [] {
      VettedIff(t, s, es[..|es| - 1], c);
      VettingStep(t, Run(t, s, es[..|es| - 1]), es[|es| - 1], c);
    }
  }

  ghost predicate Founded(t: Texts, s: State, es: seq<Event>, c: Cid) {
    c == Undef || WasAccepted(t, s, es, c) || WasBuilt(t, s, es, c)
  }

  /** A prevote names only a block that the validator accepted, a precommit only such a block or one that
      the node built. */
  ghost predicate FoundedVote(t: Texts, s: State, es: seq<Event>, v: Vote) {
    v.block != Blank ==>
      var c := Denotes(t, v.block);
      Founded(t, s, es, c) && (v.kind == PreVote ==> c == Undef || WasAccepted(t, s, es, c))
  }

  lemma VettedFounded(t: Texts, b: State, es: seq<Event>, c: Cid)
    requires IsBoot(b) && Vetted(Run(t, b, es).past, c)
    ensures Founded(t, b, es, c)
  {
    if c != Undef {
      VettedIff(t, b, es, c);
    }
  }

  /** From the moment a node is set up: whatever it votes for, locks or commits is founded in this way,
      although the proposed block survives from round to round. */
  lemma NothingUnvetted(t: Texts, b: State, es: seq<Event>)
    requires SoundText(t) && IsBoot(b)
    ensures var h := Run(t, b, es).past;
            && (forall i :: 0 <= i < |h.log| && h.log[i].msg.VoteMsg? ==> FoundedVote(t, b, es, h.log[i].msg.vote))
            && (forall i :: 0 <= i < |h.locks| ==> Founded(t, b, es, h.locks[i].block))
            && (forall i :: 0 <= i < |h.commits| ==> Founded(t, b, es, h.commits[i].block))
  {
    InvBoot(t, b);
    InvRun(t, b, es);
    var h := Run(t, b, es).past;
    forall i | 0 <= i < |h.log| && h.log[i].msg.VoteMsg? ensures FoundedVote(t, b, es, h.log[i].msg.vote) {
      VoteFounded(t, b, es, h.log[i].msg.vote);
    }
    forall i | 0 <= i < |h.locks| ensures Founded(t, b, es, h.locks[i].block) {
      VettedFounded(t, b, es, h.locks[i].block);
    }
    forall i | 0 <= i < |h.commits| ensures Founded(t, b, es, h.commits[i].block) {
      VettedFounded(t, b, es, h.commits[i].block);
    }
  }

  lemma VoteFounded(t: Texts, b: State, es: seq<Event>, v: Vote)
    requires IsBoot(b) && VoteVetted(t, Run(t, b, es).past, v)
    ensures FoundedVote(t, b, es, v)
  {
    var c := Denotes(t, v.block);
    if v.block != Blank && c != Undef {
      VettedIff(t, b, es, c);
    }
  }

  // --------------------------------------------------------------------------------------------
  // Network runs
  // --------------------------------------------------------------------------------------------

  /** In one of the first n steps this node's validator accepted c. */
  ghost predicate AcceptedBy(t: Texts, run: seq<Net>, steps: seq<NetStep>, n: nat, p: Peer, c: Cid) {
    exists m :: 0 <= m < n && AcceptsAt(t, run, steps, m, p, c)
  }

  ghost predicate AcceptsAt(t: Texts, run: seq<Net>, steps: seq<NetStep>, m: nat, p: Peer, c: Cid) {
    m < |steps| && m < |run| && steps[m].at == p && p in run[m] && TakesProposal(t, run[m][p], steps[m].event, c)
  }

  lemma {:induction false} AcceptedIff(t: Texts, run: seq<Net>, steps: seq<NetStep>, n: nat, p: Peer, c: Cid)
    requires IsRun(t, run, steps) && n <= |steps| && p in run[n] && c != Undef
    ensures c in run[n][p].past.validated <==> AcceptedBy(t, run, steps, n, p, c)
  {
    if n == 0 {
      NothingInitially(t, run[0], p);
    } else {
      StepOf(t, run, steps, n - 1);
      assert p in run[n - 1];
      AcceptedIff(t, run, steps, n - 1, p, c);
      AcceptedOneMore(t, run, steps, n - 1, p, c);
      if steps[n - 1].at == p {
        VettingStep(t, run[n - 1][p], steps[n - 1].event, c);
      }
    }
  }

  lemma AcceptedOneMore(t: Texts, run: seq<Net>, steps: seq<NetStep>, n: nat, p: Peer, c: Cid)
    ensures AcceptedBy(t, run, steps, n + 1, p, c) <==>
            AcceptedBy(t, run, steps, n, p, c) || AcceptsAt(t, run, steps, n, p, c)
  {
    if AcceptedBy(t, run, steps, n, p, c) {
      var m :| 0 <= m < n && AcceptsAt(t, run, steps, m, p, c);
      assert 0 <= m < n + 1;
    }
  }

  lemma NothingInitially(t: Texts, net: Net, p: Peer)
    requires NetInitial(t, net) && p in net
    ensures net[p].past.validated == {}
  {
    var b, proposer, env :| IsBoot(b) && net[p] == OnTick(t, b, proposer, env);
    StartFrame(t, b.(tip := b.tip.(proposer := proposer)), false, env);
  }
}
