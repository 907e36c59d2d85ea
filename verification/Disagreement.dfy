/** The bound of the agreement theorem cannot be improved: whenever it is not met there is a network
    run, with no more double voters than allowed for, in which two correct nodes commit different
    blocks at one height and round. */
module Disagreement {
  import opened Bytes
  import opened Objects
  import opened Rounds
  import opened RoundSafety
  import opened RoundTheorems
  import opened Quorums
  import opened Network
  import opened Agreement
  import opened Progress

  // --------------------------------------------------------------------------------------------
  // Making runs
  // --------------------------------------------------------------------------------------------

  ghost predicate Heard(net: Net, es: seq<Event>) {
    forall i :: 0 <= i < |es| && es[i].Receive? ==> Said(net, es[i].from, es[i].msg)
  }

  /** Nothing that was said is taken back. */
  ghost predicate Remembers(net: Net, net': Net) {
    net.Keys == net'.Keys && forall p :: p in net ==> net[p].past.log <= net'[p].past.log
  }

  lemma StillSaid(net: Net, net': Net, p: Peer, m: Msg)
    requires Remembers(net, net') && Said(net, p, m)
    ensures Said(net', p, m)
  {
    if p in net {
      var i :| 0 <= i < |net[p].past.log| && net[p].past.log[i].msg == m;
      assert net'[p].past.log[i] == net[p].past.log[i];
    }
  }

  lemma NodeStep(t: Texts, net: Net, within: Net -> bool, p: Peer, e: Event, r: State)
    requires Closed(t, within) && within(net) && p in net && r == Next(t, net[p], e)
    requires e.Receive? ==> Said(net, e.from, e.msg)
    ensures within(net[p := r]) && Remembers(net, net[p := r])
  {
    var st := NetStep(p, e);
    assert Possible(net, st) && NetNext(t, net, st) == net[p := r];
    PastGrows(t, net[p], e);
  }

  lemma NodeOneMore(t: Texts, net: Net, within: Net -> bool, p: Peer, es: seq<Event>, mid: State, e: Event, r: State)
    requires p in net && Heard(net, es) && e in es
    requires Closed(t, within) && within(net[p := mid]) && Remembers(net, net[p := mid]) && r == Next(t, mid, e)
    ensures within(net[p := r]) && Remembers(net, net[p := r])
  {
    var net' := net[p := mid];
    if e.Receive? {
      StillSaid(net, net', e.from, e.msg);
    }
    NodeStep(t, net', within, p, e, r);
    assert net'[p := r] == net[p := r];
  }

  /** One node takes a whole list of events; the others stand still. */
  lemma {:induction false} NodeRuns(t: Texts, net: Net, within: Net -> bool, p: Peer, es: seq<Event>, n: nat, r: State)
    requires Closed(t, within) && within(net) && p in net && Heard(net, es) && n <= |es| && r == Run(t, net[p], es[..n])
    ensures within(net[p := r]) && Remembers(net, net[p := r])
  {
    if n == 0 {
      assert net[p := r] == net;
    } else {
      var mid := Run(t, net[p], es[..n - 1]);
      NodeRuns(t, net, within, p, es, n - 1, mid);
      assert es[..n][..n - 1] == es[..n - 1];
      NodeOneMore(t, net, within, p, es, mid, es[n - 1], r);
    }
  }

  lemma NodeRunsAll(t: Texts, net: Net, within: Net -> bool, p: Peer, es: seq<Event>, r: State)
    requires Closed(t, within) && within(net) && p in net && Heard(net, es) && r == Run(t, net[p], es)
    ensures within(net[p := r]) && Remembers(net, net[p := r])
  {
    assert es[..|es|] == es;
    NodeRuns(t, net, within, p, es, |es|, r);
  }

  // --------------------------------------------------------------------------------------------
  // The correct voters
  // --------------------------------------------------------------------------------------------

  const NoLead := RoundEnv(false, None, BuildFailed, false)

  /** A node that follows the proposer from the start. */
  function Fresh(t: Texts, p: Peer, proposer: Peer, height: nat): State {
    OnTick(t, Boot(p, true, height, Undef, Undef), proposer, NoLead)
  }

  function OwnBallot(t: Texts, p: Peer, kind: VoteKind, h: nat, c: Cid): Msg {
    VoteMsg(Ballot(t, p, kind, h, 1, c))
  }

  /** It accepts the proposal and hears one prevote; requiring none, it locks at once. */
  function Persuaded(t: Texts, proposer: Peer, other: Peer, h: nat, c: Cid): seq<Event> {
    [Receive(proposer, Proposal(h, 1, t.str(c)), true, true), ReceiveVote(t, other, PreVote, h, 1, c)]
  }

  function Voted(t: Texts, p: Peer, proposer: Peer, height: nat, other: Peer, c: Cid): State {
    Run(t, Fresh(t, p, proposer, height), Persuaded(t, proposer, other, (height + 1) % TwoTo64, c))
  }

  lemma FreshState(t: Texts, p: Peer, proposer: Peer, height: nat)
    requires p != proposer
    ensures var s := Fresh(t, p, proposer, height);
            && Initial(t, s) && s.self == p && s.canSign && s.tip == Tip(proposer, height, Undef, Undef)
            && s.prop == Round(false, (height + 1) % TwoTo64, 1, Propose, Undef, 0, map[], map[], Undef, 0,
                               false, false, false)
            && s.past == History(1, [], {}, {}, [], [], [])
  {
    assert IsBoot(Boot(p, true, height, Undef, Undef));
  }

  lemma VotedSays(t: Texts, p: Peer, proposer: Peer, height: nat, other: Peer, c: Cid)
    requires SoundText(t) && p != proposer && other != proposer && c != Undef
    ensures var h := (height + 1) % TwoTo64;
            var s := Voted(t, p, proposer, height, other, c);
            s.past.log == [Sent(1, OwnBallot(t, p, PreVote, h, c)), Sent(1, OwnBallot(t, p, PreCommit, h, c))]
  {
    FreshState(t, p, proposer, height);
    PersuadedRun(t, Fresh(t, p, proposer, height), proposer, other, c);
  }

  lemma PersuadedRun(t: Texts, s: State, proposer: Peer, other: Peer, c: Cid)
    requires SoundText(t) && c != Undef && other != proposer && s.canSign && s.tip.proposer == proposer
    requires s.prop.step == Propose && !s.prop.pvDone && !s.prop.pcDone && s.prop.f == 0 && s.prop.preVotes == map[]
    requires s.prop.round == 1 && !s.prop.amProposer
    ensures var h := s.prop.height;
            Run(t, s, Persuaded(t, proposer, other, h, c)).past.log ==
              s.past.log + [Sent(s.past.epoch, OwnBallot(t, s.self, PreVote, h, c)),
                            Sent(s.past.epoch, OwnBallot(t, s.self, PreCommit, h, c))]
  {
    var es := Persuaded(t, proposer, other, s.prop.height, c);
    RunTwo(t, s, es[0], es[1]);
    PersuadedSays(t, s, proposer, other, c);
  }

  lemma PersuadedSays(t: Texts, s: State, proposer: Peer, other: Peer, c: Cid)
    requires SoundText(t) && c != Undef && other != proposer && s.canSign && s.tip.proposer == proposer
    requires s.prop.step == Propose && !s.prop.pvDone && !s.prop.pcDone && s.prop.f == 0 && s.prop.preVotes == map[]
    requires s.prop.round == 1 && !s.prop.amProposer
    ensures var h := s.prop.height;
            var r := Next(t, s, Receive(proposer, Proposal(h, 1, t.str(c)), true, true));
            Next(t, r, ReceiveVote(t, other, PreVote, h, 1, c)).past.log ==
              s.past.log + [Sent(s.past.epoch, OwnBallot(t, s.self, PreVote, h, c)),
                            Sent(s.past.epoch, OwnBallot(t, s.self, PreCommit, h, c))]
  {
    OneProposal(t, s, proposer, s.prop.height, 1, c);
    OnePreVote(t, Next(t, s, Receive(proposer, Proposal(s.prop.height, 1, t.str(c)), true, true)), other);
  }

  /** These voters move on, the rest of the network stands still. */
  function AfterVoters(net: Net, list: seq<Peer>, moved: Peer -> State): Net {
    map p | p in net :: if p in list then moved(p) else net[p]
  }

  lemma AfterOneMore(net: Net, list: seq<Peer>, moved: Peer -> State)
    requires list != [] && NoDuplicates(list) && forall p :: p in list ==> p in net
    ensures var n := |list| - 1;
            var mid := AfterVoters(net, list[..n], moved);
            && NoDuplicates(list[..n]) && (forall p :: p in list[..n] ==> p in list) && mid[list[n]] == net[list[n]]
            && AfterVoters(net, list, moved) == mid[list[n] := moved(list[n])]
  {
    var n := |list| - 1;
    assert list == list[..n] + [list[n]];
  }

  lemma OneVoter(t: Texts, net: Net, within: Net -> bool, p: Peer, proposer: Peer, height: nat, other: Peer, c: Cid)
    requires Closed(t, within) && within(net) && proposer !in net && p in net && net[p] == Fresh(t, p, proposer, height)
    requires Said(net, other, OwnBallot(t, other, PreVote, (height + 1) % TwoTo64, c))
    ensures var net' := net[p := Voted(t, p, proposer, height, other, c)];
            within(net') && Remembers(net, net')
  {
    var es := Persuaded(t, proposer, other, (height + 1) % TwoTo64, c);
    assert Heard(net, es);
    NodeRunsAll(t, net, within, p, es, Voted(t, p, proposer, height, other, c));
  }

  lemma {:induction false} VotersVote(t: Texts, net: Net, within: Net -> bool, list: seq<Peer>, proposer: Peer,
      height: nat, other: Peer, c: Cid, moved: Peer -> State)
    requires Closed(t, within) && within(net) && NoDuplicates(list) && proposer !in net
    requires forall p :: p in list ==> p in net && net[p] == Fresh(t, p, proposer, height)
    requires forall p :: p in list ==> moved(p) == Voted(t, p, proposer, height, other, c)
    requires Said(net, other, OwnBallot(t, other, PreVote, (height + 1) % TwoTo64, c))
    ensures within(AfterVoters(net, list, moved)) && Remembers(net, AfterVoters(net, list, moved))
  {
    if list == [] {
      assert AfterVoters(net, list, moved) == net;
    } else {
      var n := |list| - 1;
      var mid := AfterVoters(net, list[..n], moved);
      AfterOneMore(net, list, moved);
      VotersVote(t, net, within, list[..n], proposer, height, other, c, moved);
      StillSaid(net, mid, other, OwnBallot(t, other, PreVote, (height + 1) % TwoTo64, c));
      OneVoter(t, mid, within, list[n], proposer, height, other, c);
    }
  }

  // --------------------------------------------------------------------------------------------
  // The two nodes that are made to disagree
  // --------------------------------------------------------------------------------------------

  /** Names of different lengths, all longer than p. */
  function Names(p: Peer, m: nat): seq<Peer> {
    seq(m, (i: nat) => seq(|p| + 1 + i, _ => 0))
  }

  lemma NamesCounted(p: Peer, m: nat)
    ensures |Others(Names(p, m), p)| == m
  {
    var names := Names(p, m);
    assert forall i :: 0 <= i < m ==> |names[i]| == |p| + 1 + i;
    CountedOnce(names);
    assert Others(names, p) == Elements(names);
  }

  lemma LedOnce(t: Texts, b: State, m: nat) returns (s: State)
    requires IsBoot(b)
    ensures Initial(t, s) && s.self == b.self && s.canSign == b.canSign && s.tip.height == b.tip.height
    ensures s.prop.f == if b.canSign then Quorum(m) else s.prop.f
    ensures s.past.commits == []
  {
    NamesCounted(b.self, m);
    var env := RoundEnv(true, Some(Names(b.self, m)), BuildFailed, false);
    s := OnTick(t, b, b.self, env);
    StartFrame(t, b.(tip := b.tip.(proposer := b.self)), false, env);
  }

  /** A first state in which the node demands f. */
  ghost predicate Start(t: Texts, s: State, p: Peer, f: nat, height: nat) {
    && Initial(t, s) && s.self == p && s.canSign && s.tip.height == height && s.prop.f == f && s.past.commits == []
  }

  /** A node that led its first round with as many others as make it demand f. */
  lemma StartWith(t: Texts, p: Peer, f: nat, height: nat) returns (s: State)
    requires Demanded(f)
    ensures Start(t, s, p, f, height)
  {
    var b := Boot(p, true, height, Undef, Undef);
    assert IsBoot(b);
    if f == 0 {
      s := OnTick(t, b, p, NoLead);
    } else {
      s := LedOnce(t, b, (f - 1) / 2 * 3);
    }
  }

  /** The node is told of the proposal, and says that it accepts. */
  lemma NodeProposed(t: Texts, net: Net, within: Net -> bool, p: Peer, proposer: Peer, c: Cid) returns (r: State)
    requires SoundText(t) && Closed(t, within) && within(net) && p in net && proposer !in net && c != Undef
    requires net[p].self == p && net[p].canSign
    ensures var h := (net[p].tip.height + 1) % TwoTo64;
            && within(net[p := r]) && Remembers(net, net[p := r])
            && Ready(r, proposer, h, 1, c) && r.prop.f == net[p].prop.f && r.past.commits == net[p].past.commits
            && Said(net[p := r], p, OwnBallot(t, p, PreVote, h, c))
  {
    var s := net[p];
    var h := (s.tip.height + 1) % TwoTo64;
    var es := Invited(t, proposer, h, 1, c, NoLead);
    r := Run(t, s, es);
    NodeRunsAll(t, net, within, p, es, r);
    AfterInvitation(t, s, proposer, h, 1, c, NoLead);
    RunKeepsKey(t, s, es);
    LastSaid(net[p := r], p, OwnBallot(t, p, PreVote, h, c));
  }

  lemma LastSaid(net: Net, p: Peer, m: Msg)
    requires p in net && |net[p].past.log| > 0 && net[p].past.log[|net[p].past.log| - 1].msg == m
    ensures Said(net, p, m)
  {
  }

  lemma {:induction false} RunKeepsKey(t: Texts, s: State, es: seq<Event>)
    ensures Run(t, s, es).canSign == s.canSign && Run(t, s, es).self == s.self
  {
    if es != [] {
      RunKeepsKey(t, s, es[..|es| - 1]);
      KeepsKey(t, Run(t, s, es[..|es| - 1]), es[|es| - 1]);
    }
  }

  lemma KeepsKey(t: Texts, s: State, e: Event)
    ensures Next(t, s, e).canSign == s.canSign && Next(t, s, e).self == s.self
  {
    match e
    case Tick(p, env) => StartFrame(t, s.(tip := s.tip.(proposer := p)), false, env);
    case PrecommitTimeout(env) => StartFrame(t, s.(timers := s.timers.(precommit := false)), true, env);
    case _ =>
  }

  /** Every correct voter in the list has said both votes. */
  ghost predicate Promised(t: Texts, net: Net, voters: seq<Peer>, h: nat, c: Cid) {
    forall p :: p in voters ==>
      Said(net, p, OwnBallot(t, p, PreVote, h, c)) && Said(net, p, OwnBallot(t, p, PreCommit, h, c))
  }

  lemma BallotsHeard(t: Texts, net: Net, proposer: Peer, voters: seq<Peer>, h: nat, c: Cid)
    requires Promised(t, net, voters, h, c) && proposer !in net
    ensures Heard(net, Ballots(t, proposer, voters, h, 1, c))
  {
    var es, n := Ballots(t, proposer, voters, h, 1, c), |voters|;
    forall i | 0 <= i < |es| ensures Said(net, es[i].from, es[i].msg) {
      if i < n {
        assert es[i] == ReceiveVote(t, voters[i], PreVote, h, 1, c);
        assert voters[i] in voters;
      } else if i < 2 * n {
        assert es[i] == ReceiveVote(t, voters[i - n], PreCommit, h, 1, c);
        assert voters[i - n] in voters;
      } else {
        assert es[i].from == proposer;
      }
    }
  }

  /** A commit of c by p on the votes of exactly these voters. */
  ghost predicate CommittedBy(net: Net, p: Peer, voters: set<Peer>, f: nat, h: nat, c: Cid) {
    && p in net && |net[p].past.commits| == 1
    && var x := net[p].past.commits[0];
       x.block == c && x.height == h && x.round == 1 && x.f == f && x.preVotes.Keys == voters
  }

  lemma NodeCommits(t: Texts, net: Net, within: Net -> bool, p: Peer, proposer: Peer, voters: seq<Peer>, h: nat, c: Cid)
    returns (r: State)
    requires Closed(t, within) && within(net) && p in net && proposer !in net && Promised(t, net, voters, h, c)
    requires Ready(net[p], proposer, h, 1, c) && net[p].past.commits == []
    requires NoDuplicates(voters) && proposer !in voters && |voters| == net[p].prop.f + 1
    ensures within(net[p := r]) && Remembers(net, net[p := r])
    ensures CommittedBy(net[p := r], p, Elements(voters), net[p].prop.f, h, c)
  {
    var es := Ballots(t, proposer, voters, h, 1, c);
    BallotsHeard(t, net, proposer, voters, h, c);
    r := Run(t, net[p], es);
    NodeRunsAll(t, net, within, p, es, r);
    ReadyCommits(t, net[p], proposer, voters, h, 1, c);
  }

  // --------------------------------------------------------------------------------------------
  // The run
  // --------------------------------------------------------------------------------------------

  /** A faulty proposer shows c to a and the voters in va, and e to b and the voters in vb.  The
      voters in both sets are faulty, all others correct. */
  datatype Scene = Scene(proposer: Peer, a: Peer, b: Peer, height: nat, c: Cid, e: Cid,
                         v: set<Peer>, va: set<Peer>, vb: set<Peer>)
  {
    function H(): nat {
      (height + 1) % TwoTo64
    }

    ghost predicate Cast() {
      && a != b && a != proposer && b != proposer && a !in v && b !in v && proposer !in v
      && c != Undef && e != Undef && va <= v && vb <= v
    }

    ghost predicate Correct(net: Net) {
      net.Keys == {a, b} + (v - va * vb)
    }

    /** Both nodes have accepted their proposals and demand fa and fb. */
    ghost predicate Waiting(t: Texts, net: Net, fa: nat, fb: nat) {
      && Correct(net) && net[a].past.commits == [] && net[b].past.commits == []
      && Ready(net[a], proposer, H(), 1, c) && net[a].prop.f == fa
      && Ready(net[b], proposer, H(), 1, e) && net[b].prop.f == fb
    }

    ghost predicate Idle(t: Texts, net: Net, who: set<Peer>) {
      forall p :: p in who ==> p in net && net[p] == Fresh(t, p, proposer, height)
    }

    ghost predicate Took(t: Texts, net: Net, who: set<Peer>, other: Peer, x: Cid) {
      forall p :: p in who ==> p in net && net[p] == Voted(t, p, proposer, height, other, x)
    }

    /** Every correct voter has voted for what it was shown. */
    ghost predicate Decided(t: Texts, net: Net) {
      Took(t, net, va - vb, a, c) && Took(t, net, vb - va, b, e) && Idle(t, net, v - va - vb)
    }
  }

  ghost predicate AgreeOn(net: Net, net': Net, who: set<Peer>) {
    forall p :: p in who && p in net ==> p in net' && net'[p] == net[p]
  }

  lemma IdleFrame(t: Texts, sc: Scene, net: Net, net': Net, who: set<Peer>)
    requires sc.Idle(t, net, who) && AgreeOn(net, net', who)
    ensures sc.Idle(t, net', who)
  {
  }

  lemma TookFrame(t: Texts, sc: Scene, net: Net, net': Net, who: set<Peer>, other: Peer, x: Cid)
    requires sc.Took(t, net, who, other, x) && AgreeOn(net, net', who)
    ensures sc.Took(t, net', who, other, x)
  {
  }

  lemma DecidedFrame(t: Texts, sc: Scene, net: Net, net': Net)
    requires sc.va <= sc.v && sc.vb <= sc.v && sc.Decided(t, net) && AgreeOn(net, net', sc.v)
    ensures sc.Decided(t, net')
  {
  }

  /** Both nodes are told of their proposals. */
  lemma BothProposed(t: Texts, sc: Scene, net: Net, within: Net -> bool, fa: nat, fb: nat) returns (net': Net)
    requires SoundText(t) && sc.Cast() && sc.Correct(net) && Closed(t, within) && within(net)
    requires Start(t, net[sc.a], sc.a, fa, sc.height) && Start(t, net[sc.b], sc.b, fb, sc.height)
    ensures within(net') && sc.Waiting(t, net', fa, fb) && AgreeOn(net, net', sc.v)
    ensures Said(net', sc.a, OwnBallot(t, sc.a, PreVote, sc.H(), sc.c))
    ensures Said(net', sc.b, OwnBallot(t, sc.b, PreVote, sc.H(), sc.e))
  {
    var mid := NodeShown(t, sc, net, within, sc.a, fa, sc.c);
    net' := NodeShown(t, sc, mid, within, sc.b, fb, sc.e);
    StillSaid(mid, net', sc.a, OwnBallot(t, sc.a, PreVote, sc.H(), sc.c));
  }

  /** The node has accepted x and said so. */
  ghost predicate Shown(t: Texts, sc: Scene, net: Net, p: Peer, f: nat, x: Cid) {
    && p in net && net[p].past.commits == [] && Ready(net[p], sc.proposer, sc.H(), 1, x) && net[p].prop.f == f
    && Said(net, p, OwnBallot(t, p, PreVote, sc.H(), x))
  }

  lemma NodeShown(t: Texts, sc: Scene, net: Net, within: Net -> bool, p: Peer, f: nat, x: Cid) returns (net': Net)
    requires SoundText(t) && Closed(t, within) && within(net) && p in net && sc.proposer !in net && x != Undef
    requires Start(t, net[p], p, f, sc.height)
    ensures within(net') && Remembers(net, net') && Shown(t, sc, net', p, f, x)
    ensures net'.Keys == net.Keys && forall q :: q in net && q != p ==> net'[q] == net[q]
  {
    var r := NodeProposed(t, net, within, p, sc.proposer, x);
    net' := net[p := r];
  }

  lemma Opening(t: Texts, sc: Scene, net: Net, within: Net -> bool, fa: nat, fb: nat) returns (net': Net)
    requires SoundText(t) && sc.Cast() && sc.Correct(net) && Closed(t, within) && within(net)
    requires Start(t, net[sc.a], sc.a, fa, sc.height) && Start(t, net[sc.b], sc.b, fb, sc.height)
    requires sc.Idle(t, net, sc.v - sc.va * sc.vb)
    ensures within(net') && sc.Waiting(t, net', fa, fb) && sc.Idle(t, net', sc.v - sc.va * sc.vb)
    ensures Said(net', sc.a, OwnBallot(t, sc.a, PreVote, sc.H(), sc.c))
    ensures Said(net', sc.b, OwnBallot(t, sc.b, PreVote, sc.H(), sc.e))
  {
    net' := BothProposed(t, sc, net, within, fa, fb);
    IdleFrame(t, sc, net, net', sc.v - sc.va * sc.vb);
  }

  /** One group of correct voters votes for what it was shown. */
  lemma GroupVotes(t: Texts, sc: Scene, net: Net, within: Net -> bool, who: set<Peer>, other: Peer, x: Cid)
    returns (net': Net)
    requires Closed(t, within) && within(net) && sc.proposer !in net && sc.Idle(t, net, who)
    requires Said(net, other, OwnBallot(t, other, PreVote, sc.H(), x))
    ensures within(net') && Remembers(net, net') && sc.Took(t, net', who, other, x)
    ensures forall p :: p in net && p !in who ==> net'[p] == net[p]
  {
    var list := Listed(who);
    assert forall p :: p in list <==> p in Elements(list);
    var moved := (p: Peer) => Voted(t, p, sc.proposer, sc.height, other, x);
    VotersVote(t, net, within, list, sc.proposer, sc.height, other, x, moved);
    net' := AfterVoters(net, list, moved);
  }

  /** The first group's turn; what the second needs is still there. */
  lemma FirstGroup(t: Texts, sc: Scene, net: Net, within: Net -> bool) returns (net': Net)
    requires sc.Cast() && Closed(t, within) && within(net) && sc.Correct(net)
    requires sc.Idle(t, net, sc.v - sc.va * sc.vb)
    requires Said(net, sc.a, OwnBallot(t, sc.a, PreVote, sc.H(), sc.c))
    requires Said(net, sc.b, OwnBallot(t, sc.b, PreVote, sc.H(), sc.e))
    ensures within(net') && net'.Keys == net.Keys && net'[sc.a] == net[sc.a] && net'[sc.b] == net[sc.b]
    ensures sc.Took(t, net', sc.va - sc.vb, sc.a, sc.c) && sc.Idle(t, net', sc.v - sc.va)
    ensures Said(net', sc.b, OwnBallot(t, sc.b, PreVote, sc.H(), sc.e))
  {
    net' := GroupVotes(t, sc, net, within, sc.va - sc.vb, sc.a, sc.c);
    StillSaid(net, net', sc.b, OwnBallot(t, sc.b, PreVote, sc.H(), sc.e));
    IdleFrame(t, sc, net, net', sc.v - sc.va);
  }

  lemma SecondGroup(t: Texts, sc: Scene, net: Net, within: Net -> bool) returns (net': Net)
    requires sc.Cast() && Closed(t, within) && within(net) && sc.Correct(net)
    requires sc.Took(t, net, sc.va - sc.vb, sc.a, sc.c) && sc.Idle(t, net, sc.v - sc.va)
    requires Said(net, sc.b, OwnBallot(t, sc.b, PreVote, sc.H(), sc.e))
    ensures within(net') && net'.Keys == net.Keys && net'[sc.a] == net[sc.a] && net'[sc.b] == net[sc.b]
    ensures sc.Decided(t, net')
  {
    net' := GroupVotes(t, sc, net, within, sc.vb - sc.va, sc.b, sc.e);
    TookFrame(t, sc, net, net', sc.va - sc.vb, sc.a, sc.c);
    IdleFrame(t, sc, net, net', sc.v - sc.va - sc.vb);
  }

  lemma Voting(t: Texts, sc: Scene, net: Net, within: Net -> bool, fa: nat, fb: nat) returns (net': Net)
    requires sc.Cast() && Closed(t, within) && within(net)
    requires sc.Waiting(t, net, fa, fb) && sc.Idle(t, net, sc.v - sc.va * sc.vb)
    requires Said(net, sc.a, OwnBallot(t, sc.a, PreVote, sc.H(), sc.c))
    requires Said(net, sc.b, OwnBallot(t, sc.b, PreVote, sc.H(), sc.e))
    ensures within(net') && sc.Waiting(t, net', fa, fb) && sc.Decided(t, net')
  {
    var mid := FirstGroup(t, sc, net, within);
    net' := SecondGroup(t, sc, mid, within);
  }

  lemma GroupPromised(t: Texts, sc: Scene, net: Net, who: set<Peer>, list: seq<Peer>, other: Peer, x: Cid)
    requires SoundText(t) && x != Undef && other != sc.proposer && sc.proposer !in list
    requires sc.Took(t, net, who, other, x) && forall p :: p in list && p in net ==> p in who
    ensures Promised(t, net, list, sc.H(), x)
  {
    forall p | p in list
      ensures Said(net, p, OwnBallot(t, p, PreVote, sc.H(), x)) && Said(net, p, OwnBallot(t, p, PreCommit, sc.H(), x))
    {
      if p in net {
        VotedSays(t, p, sc.proposer, sc.height, other, x);
        TwoSaid(net, p, OwnBallot(t, p, PreVote, sc.H(), x), OwnBallot(t, p, PreCommit, sc.H(), x));
      }
    }
  }

  lemma TwoSaid(net: Net, p: Peer, m: Msg, m': Msg)
    requires p in net && net[p].past.log == [Sent(1, m), Sent(1, m')]
    ensures Said(net, p, m) && Said(net, p, m')
  {
    assert net[p].past.log[0].msg == m && net[p].past.log[1].msg == m';
  }

  /** Both nodes commit on what was promised. */
  lemma BothCommit(t: Texts, sc: Scene, net: Net, within: Net -> bool, fa: nat, fb: nat, la: seq<Peer>, lb: seq<Peer>)
    returns (net': Net)
    requires sc.Cast() && Closed(t, within) && within(net) && sc.Waiting(t, net, fa, fb)
    requires NoDuplicates(la) && NoDuplicates(lb) && |la| == fa + 1 && |lb| == fb + 1
    requires Elements(la) == sc.va && Elements(lb) == sc.vb
    requires Promised(t, net, la, sc.H(), sc.c) && Promised(t, net, lb, sc.H(), sc.e)
    ensures within(net') && sc.Correct(net') && AgreeOn(net, net', sc.v)
    ensures CommittedBy(net', sc.a, sc.va, fa, sc.H(), sc.c) && CommittedBy(net', sc.b, sc.vb, fb, sc.H(), sc.e)
  {
    assert sc.proposer !in la && sc.proposer !in lb by {
      assert sc.proposer !in Elements(la) && sc.proposer !in Elements(lb);
    }
    var ra := NodeCommits(t, net, within, sc.a, sc.proposer, la, sc.H(), sc.c);
    var mid := net[sc.a := ra];
    StillPromised(t, net, mid, lb, sc.H(), sc.e);
    var rb := NodeCommits(t, mid, within, sc.b, sc.proposer, lb, sc.H(), sc.e);
    net' := mid[sc.b := rb];
  }

  lemma StillPromised(t: Texts, net: Net, net': Net, voters: seq<Peer>, h: nat, c: Cid)
    requires Remembers(net, net') && Promised(t, net, voters, h, c)
    ensures Promised(t, net', voters, h, c)
  {
    forall p | p in voters
      ensures Said(net', p, OwnBallot(t, p, PreVote, h, c)) && Said(net', p, OwnBallot(t, p, PreCommit, h, c))
    {
      StillSaid(net, net', p, OwnBallot(t, p, PreVote, h, c));
      StillSaid(net, net', p, OwnBallot(t, p, PreCommit, h, c));
    }
  }

  lemma Closing(t: Texts, sc: Scene, net: Net, within: Net -> bool, fa: nat, fb: nat) returns (net': Net)
    requires SoundText(t) && sc.Cast() && Closed(t, within) && within(net)
    requires sc.Waiting(t, net, fa, fb) && sc.Decided(t, net) && |sc.va| == fa + 1 && |sc.vb| == fb + 1
    ensures within(net') && sc.Correct(net') && sc.Decided(t, net')
    ensures CommittedBy(net', sc.a, sc.va, fa, sc.H(), sc.c) && CommittedBy(net', sc.b, sc.vb, fb, sc.H(), sc.e)
  {
    var la := Listed(sc.va);
    var lb := Listed(sc.vb);
    assert forall p :: (p in la <==> p in Elements(la)) && (p in lb <==> p in Elements(lb));
    GroupPromised(t, sc, net, sc.va - sc.vb, la, sc.a, sc.c);
    GroupPromised(t, sc, net, sc.vb - sc.va, lb, sc.b, sc.e);
    net' := BothCommit(t, sc, net, within, fa, fb, la, lb);
    DecidedFrame(t, sc, net, net');
  }

  lemma VotedOnce(t: Texts, p: Peer, proposer: Peer, height: nat, other: Peer, c: Cid)
    requires SoundText(t) && p != proposer && other != proposer && c != Undef
    ensures VotesOnce(Voted(t, p, proposer, height, other, c), (height + 1) % TwoTo64, 1)
  {
    VotedSays(t, p, proposer, height, other, c);
  }

  lemma FreshVotedOnce(t: Texts, p: Peer, proposer: Peer, height: nat)
    requires p != proposer
    ensures VotesOnce(Fresh(t, p, proposer, height), (height + 1) % TwoTo64, 1)
  {
    FreshState(t, p, proposer, height);
  }

  lemma CorrectVotesOnce(t: Texts, sc: Scene, net: Net, p: Peer)
    requires SoundText(t) && sc.Cast() && sc.Decided(t, net) && p in sc.v && p !in sc.va * sc.vb && p in net
    ensures VotesOnce(net[p], sc.H(), 1)
  {
    if p in sc.va {
      VotedOnce(t, p, sc.proposer, sc.height, sc.a, sc.c);
    } else if p in sc.vb {
      VotedOnce(t, p, sc.proposer, sc.height, sc.b, sc.e);
    } else {
      FreshVotedOnce(t, p, sc.proposer, sc.height);
    }
  }

  /** Only the voters in both sets vote twice. */
  lemma OnlySharedVoteTwice(t: Texts, sc: Scene, net: Net)
    requires SoundText(t) && sc.Cast() && sc.Correct(net) && sc.Decided(t, net)
    ensures DoubleVoters(net, sc.v, sc.H(), 1) <= sc.va * sc.vb
  {
    forall p | p in sc.v && p in net ensures VotesOnce(net[p], sc.H(), 1) {
      CorrectVotesOnce(t, sc, net, p);
    }
  }

  // --------------------------------------------------------------------------------------------
  // The exact condition
  // --------------------------------------------------------------------------------------------

  /** Two correct nodes that demand fa and fb have committed different blocks at one height and
      round on votes from v, with at most d double voters. */
  ghost predicate Conflict(net: Net, v: set<Peer>, fa: nat, fb: nat, d: nat) {
    exists p, i, q, j ::
      && p in net && 0 <= i < |net[p].past.commits| && q in net && 0 <= j < |net[q].past.commits|
      && Conflicting(net, net[p].past.commits[i], net[q].past.commits[j], v, fa, fb, d)
  }

  ghost predicate Conflicting(net: Net, x: Commit, y: Commit, v: set<Peer>, fa: nat, fb: nat, d: nat) {
    && x.block != Undef && y.block != Undef && x.block != y.block && x.height == y.height && x.round == y.round
    && x.f == fa && y.f == fb && x.preVotes.Keys <= v && y.preVotes.Keys <= v
    && |DoubleVoters(net, v, x.height, x.round)| <= d
  }

  ghost predicate Attainable(t: Texts, net: Net) {
    exists run, steps :: IsRun(t, run, steps) && run[|steps|] == net
  }

  lemma AttainableStart(t: Texts, net: Net)
    requires NetInitial(t, net)
    ensures Attainable(t, net)
  {
    var run: seq<Net>, steps: seq<NetStep> := [net], [];
    assert IsRun(t, run, steps) && run[|steps|] == net;
  }

  lemma OneStepMore(t: Texts, run: seq<Net>, steps: seq<NetStep>, st: NetStep, net: Net)
    requires IsRun(t, run, steps) && Possible(run[|steps|], st) && net == NetNext(t, run[|steps|], st)
    ensures IsRun(t, run + [net], steps + [st])
  {
    var run', steps' := run + [net], steps + [st];
    forall i | 0 <= i < |steps'| ensures StepAt(t, run', steps', i) {
      if i < |steps| {
        StepOf(t, run, steps, i);
      }
    }
  }

  lemma AttainableStep(t: Texts, run: seq<Net>, steps: seq<NetStep>, st: NetStep, net: Net)
    requires IsRun(t, run, steps) && Possible(run[|steps|], st) && net == NetNext(t, run[|steps|], st)
    ensures Attainable(t, net)
  {
    OneStepMore(t, run, steps, st, net);
    assert (run + [net])[|steps + [st]|] == net;
  }

  lemma AttainableClosed(t: Texts)
    ensures Closed(t, net => Attainable(t, net))
  {
    forall net, st | Attainable(t, net) && Possible(net, st) ensures Attainable(t, NetNext(t, net, st)) {
      var run, steps :| IsRun(t, run, steps) && run[|steps|] == net;
      AttainableStep(t, run, steps, st, NetNext(t, net, st));
    }
  }

  /** The whole run: whenever fa + fb + 2 is at most |v| + d, two correct nodes can be made to
      disagree. */
  lemma Disagree(t: Texts, v: set<Peer>, fa: nat, fb: nat, d: nat, proposer: Peer, a: Peer, b: Peer)
    returns (net: Net)
    requires SoundText(t) && Demanded(fa) && Demanded(fb) && fa < |v| && fb < |v| && fa + fb + 2 <= |v| + d
    requires a != b && a != proposer && b != proposer && a !in v && b !in v && proposer !in v
    ensures Attainable(t, net) && Conflict(net, v, fa, fb, d)
  {
    var va, vb := FarApart(v, fa, fb);
    var sc := Scene(proposer, a, b, 0, [0], [1], v, va, vb);
    var first := FirstNet(t, sc, fa, fb);
    AttainableStart(t, first);
    AttainableClosed(t);
    var within := (n: Net) => Attainable(t, n);
    net := Play(t, sc, first, within, fa, fb);
    OnlySharedVoteTwice(t, sc, net);
    SubsetSize(DoubleVoters(net, v, sc.H(), 1), va * vb);
    assert Conflicting(net, net[a].past.commits[0], net[b].past.commits[0], v, fa, fb, d);
  }

  lemma FirstNet(t: Texts, sc: Scene, fa: nat, fb: nat) returns (net: Net)
    requires sc.Cast() && Demanded(fa) && Demanded(fb)
    ensures NetInitial(t, net) && sc.Correct(net) && sc.Idle(t, net, sc.v - sc.va * sc.vb)
    ensures Start(t, net[sc.a], sc.a, fa, sc.height) && Start(t, net[sc.b], sc.b, fb, sc.height)
  {
    var sa := StartWith(t, sc.a, fa, sc.height);
    var sb := StartWith(t, sc.b, fb, sc.height);
    net := Joined(t, sc, sa, sb);
  }

  lemma Joined(t: Texts, sc: Scene, sa: State, sb: State) returns (net: Net)
    requires sc.Cast() && Initial(t, sa) && sa.self == sc.a && Initial(t, sb) && sb.self == sc.b
    ensures NetInitial(t, net) && sc.Correct(net) && sc.Idle(t, net, sc.v - sc.va * sc.vb)
    ensures net[sc.a] == sa && net[sc.b] == sb
  {
    var idle := IdleNet(t, sc);
    net := idle[sc.a := sa][sc.b := sb];
    BothJoin(t, sc, idle, sa, sb);
    JoinedShape(sc, idle, sa, sb);
    IdleFrame(t, sc, idle, net, sc.v - sc.va * sc.vb);
  }

  lemma JoinedShape(sc: Scene, idle: Net, sa: State, sb: State)
    requires sc.Cast() && idle.Keys == sc.v - sc.va * sc.vb
    ensures var net := idle[sc.a := sa][sc.b := sb];
            sc.Correct(net) && net[sc.a] == sa && net[sc.b] == sb && AgreeOn(idle, net, sc.v - sc.va * sc.vb)
  {
  }

  lemma BothJoin(t: Texts, sc: Scene, idle: Net, sa: State, sb: State)
    requires NetInitial(t, idle) && Initial(t, sa) && sa.self == sc.a && Initial(t, sb) && sb.self == sc.b
    ensures NetInitial(t, idle[sc.a := sa][sc.b := sb])
  {
    JoinInitial(t, idle, sc.a, sa);
    JoinInitial(t, idle[sc.a := sa], sc.b, sb);
  }

  lemma JoinInitial(t: Texts, net: Net, p: Peer, s: State)
    requires NetInitial(t, net) && Initial(t, s) && s.self == p
    ensures NetInitial(t, net[p := s])
  {
  }

  lemma IdleNet(t: Texts, sc: Scene) returns (net: Net)
    requires sc.Cast()
    ensures net.Keys == sc.v - sc.va * sc.vb && NetInitial(t, net) && sc.Idle(t, net, net.Keys)
  {
    net := map p | p in sc.v - sc.va * sc.vb :: Fresh(t, p, sc.proposer, sc.height);
    forall p | p in net ensures Initial(t, net[p]) && net[p].self == p {
      FreshState(t, p, sc.proposer, sc.height);
    }
  }

  lemma Play(t: Texts, sc: Scene, first: Net, within: Net -> bool, fa: nat, fb: nat) returns (net: Net)
    requires SoundText(t) && sc.Cast() && sc.Correct(first) && Closed(t, within) && within(first)
    requires Start(t, first[sc.a], sc.a, fa, sc.height) && Start(t, first[sc.b], sc.b, fb, sc.height)
    requires sc.Idle(t, first, sc.v - sc.va * sc.vb) && |sc.va| == fa + 1 && |sc.vb| == fb + 1
    ensures within(net) && sc.Correct(net) && sc.Decided(t, net)
    ensures CommittedBy(net, sc.a, sc.va, fa, sc.H(), sc.c) && CommittedBy(net, sc.b, sc.vb, fb, sc.H(), sc.e)
  {
    var shown := Opening(t, sc, first, within, fa, fb);
    var voted := Voting(t, sc, shown, within, fa, fb);
    net := Closing(t, sc, voted, within, fa, fb);
  }

  /** In no run do two correct nodes that demand fa and fb commit different blocks at one height and
      round on votes from v with at most d double voters, exactly if fa + fb + 2 > |v| + d. */
  lemma AgreementIff(t: Texts, v: set<Peer>, fa: nat, fb: nat, d: nat, proposer: Peer, a: Peer, b: Peer)
    requires SoundText(t) && Demanded(fa) && Demanded(fb) && fa < |v| && fb < |v|
    requires a != b && a != proposer && b != proposer && a !in v && b !in v && proposer !in v
    ensures (forall net :: Attainable(t, net) ==> !Conflict(net, v, fa, fb, d)) <==> fa + fb + 2 > |v| + d
  {
    if fa + fb + 2 > |v| + d {
      forall net | Attainable(t, net) ensures !Conflict(net, v, fa, fb, d) {
        NoConflict(t, net, v, fa, fb, d);
      }
    } else {
      var net := Disagree(t, v, fa, fb, d, proposer, a, b);
    }
  }

  lemma NoConflict(t: Texts, net: Net, v: set<Peer>, fa: nat, fb: nat, d: nat)
    requires SoundText(t) && Attainable(t, net) && fa + fb + 2 > |v| + d
    ensures !Conflict(net, v, fa, fb, d)
  {
    var run, steps :| IsRun(t, run, steps) && run[|steps|] == net;
    if p, i, q, j :|
      && p in net && 0 <= i < |net[p].past.commits| && q in net && 0 <= j < |net[q].past.commits|
      && Conflicting(net, net[p].past.commits[i], net[q].past.commits[j], v, fa, fb, d)
    {
      QuorumAgreement(t, run, steps, |steps|, p, i, q, j, v);
    }
  }

  /** Two nodes that demand nothing, as before they have led, can be made to disagree on the votes of
      one voter. */
  lemma FreshNodesDisagree(t: Texts, proposer: Peer, voter: Peer, a: Peer, b: Peer) returns (net: Net)
    requires SoundText(t) && NoDuplicates([proposer, voter, a, b])
    ensures Attainable(t, net) && Conflict(net, {voter}, 0, 0, 1)
  {
    var all := [proposer, voter, a, b];
    assert all[0] == proposer && all[1] == voter && all[2] == a && all[3] == b;
    net := Disagree(t, {voter}, 0, 0, 1, proposer, a, b);
  }
}
