/** Round numbers: a term is the time between two beacon ticks or accepted announcements, and within a
    term every timeout takes the node one round further. */
module RoundNumbers {
  import opened Rounds
  import opened RoundSafety
  import opened RoundHistory
  import opened RoundRecords
  import opened RoundTheorems

  /** The round counter, which wraps. */
  function RoundAfter(round: nat, k: nat): nat {
    if k == 0 then round else (round + k) % TwoTo32
  }

  lemma RoundsDiffer(round: nat, j: nat, k: nat)
    requires j < TwoTo32 && k < TwoTo32 && j != k
    ensures RoundAfter(round, j) != RoundAfter(round, k)
  {
  }

  /** A tick starts with round 1, an accepted announcement with the round announced, a precommit timeout
      goes one round further, and nothing else changes the round. */
  lemma RoundStep(t: Texts, s: State, e: Event)
    ensures Next(t, s, e).prop.round ==
            if Announces(s, e) then e.msg.round
            else if e.Tick? then 1
            else if OpensRound(s, e) then (s.prop.round + 1) % TwoTo32
            else s.prop.round
  {
    match e
    case Tick(p, env) => OpenedRound(t, s.(tip := s.tip.(proposer := p)), false, env);
    case PrecommitTimeout(env) => OpenedRound(t, s.(timers := s.timers.(precommit := false)), true, env);
    case Receive(from, msg, valid, sent) => ReceivedRound(t, s, from, msg, valid, sent);
    case _ =>
  }

  lemma OpenedRound(t: Texts, s: State, inc: bool, env: RoundEnv)
    ensures StartRound(t, s, inc, env).prop.round == if inc then (s.prop.round + 1) % TwoTo32 else 1
  {
    var o := s.(prop := Opened(s, inc), timers := s.timers.(prevote := true), past := NextEpoch(s.past));
    LeadFrame(t, o, env);
  }

  lemma ReceivedRound(t: Texts, s: State, from: Peer, msg: Msg, valid: bool, sent: bool)
    ensures OnReceive(t, s, from, msg, valid, sent).prop.round ==
            if msg.NewRound? && from == s.tip.proposer then msg.round else s.prop.round
  {
    if msg.VoteMsg? && msg.vote.kind == PreCommit {
      PreCommitFrame(s, from, msg.vote);
    }
  }

  /** Neither a tick nor an accepted announcement in this run. */
  predicate SameTerm(t: Texts, s: State, es: seq<Event>) {
    es == [] ||
    (SameTerm(t, s, es[..|es| - 1]) && !es[|es| - 1].Tick? && !Announces(Run(t, s, es[..|es| - 1]), es[|es| - 1]))
  }

  /** How often the node has started over. */
  function Retries(t: Texts, s: State, es: seq<Event>): nat {
    if es == [] then 0
    else
      Retries(t, s, es[..|es| - 1]) + if OpensRound(Run(t, s, es[..|es| - 1]), es[|es| - 1]) then 1 else 0
  }

  /** A lock just taken is of the current epoch and round. */
  lemma LockStep(t: Texts, s: State, e: Event)
    ensures var r := Next(t, s, e);
            || r.past.locks == s.past.locks
            || (|r.past.locks| == |s.past.locks| + 1 && r.past.locks[..|s.past.locks|] == s.past.locks &&
                r.past.locks[|s.past.locks|].epoch == s.past.epoch &&
                r.past.locks[|s.past.locks|].round == s.prop.round)
  {
    match e
    case Tick(p, env) => StartFrame(t, s.(tip := s.tip.(proposer := p)), false, env);
    case PrecommitTimeout(env) => StartFrame(t, s.(timers := s.timers.(precommit := false)), true, env);
    case _ =>
  }

  /** In a term with k timeouts the node is k epochs and k rounds further, and every lock it took is of
      the round that belongs to the lock's epoch. */
  ghost predicate TermOf(s: State, r: State, k: nat) {
    && r.past.epoch == s.past.epoch + k && r.prop.round == RoundAfter(s.prop.round, k)
    && |s.past.locks| <= |r.past.locks|
    && (forall i :: |s.past.locks| <= i < |r.past.locks| ==>
          s.past.epoch <= r.past.locks[i].epoch <= r.past.epoch &&
          r.past.locks[i].round == RoundAfter(s.prop.round, r.past.locks[i].epoch - s.past.epoch))
  }

  lemma TermStep(t: Texts, s: State, mid: State, e: Event, k: nat)
    requires TermOf(s, mid, k) && !e.Tick? && !Announces(mid, e)
    ensures TermOf(s, Next(t, mid, e), k + if OpensRound(mid, e) then 1 else 0)
  {
    RoundStep(t, mid, e);
    HeightStep(t, mid, e);
    LockStep(t, mid, e);
    TermNumbers(s, mid, Next(t, mid, e), k, OpensRound(mid, e));
  }

  lemma TermNumbers(s: State, mid: State, r: State, k: nat, opens: bool)
    requires TermOf(s, mid, k)
    requires r.prop.round == if opens then (mid.prop.round + 1) % TwoTo32 else mid.prop.round
    requires r.past.epoch == mid.past.epoch + if opens then 1 else 0
    requires || r.past.locks == mid.past.locks
             || (|r.past.locks| == |mid.past.locks| + 1 && r.past.locks[..|mid.past.locks|] == mid.past.locks &&
                 r.past.locks[|mid.past.locks|].epoch == mid.past.epoch &&
                 r.past.locks[|mid.past.locks|].round == mid.prop.round)
    ensures TermOf(s, r, k + if opens then 1 else 0)
  {
    assert forall i :: 0 <= i < |mid.past.locks| ==> r.past.locks[i] == mid.past.locks[i];
  }

  lemma {:induction false} TermRun(t: Texts, s: State, es: seq<Event>)
    requires SameTerm(t, s, es)
    ensures TermOf(s, Run(t, s, es), Retries(t, s, es))
  {
    if es != [] {
      var before := es[..|es| - 1];
      TermRun(t, s, before);
      TermStep(t, s, Run(t, s, before), es[|es| - 1], Retries(t, s, before));
    }
  }

  /** Until the counter wraps, two epochs of one term never have the same round. */
  lemma EpochsOfTerm(t: Texts, s: State, es: seq<Event>, fs: seq<Event>)
    requires SameTerm(t, s, es) && SameTerm(t, s, fs) && Retries(t, s, es) < TwoTo32 && Retries(t, s, fs) < TwoTo32
    requires Run(t, s, es).past.epoch != Run(t, s, fs).past.epoch
    ensures Run(t, s, es).prop.round != Run(t, s, fs).prop.round
  {
    TermRun(t, s, es);
    TermRun(t, s, fs);
    RoundsDiffer(s.prop.round, Retries(t, s, es), Retries(t, s, fs));
  }

  /** In every run, no two locks taken in one term are of the same round, until the counter wraps. */
  lemma LocksOfTerm(t: Texts, s0: State, es: seq<Event>, term: seq<Event>, i: nat, j: nat)
    requires SoundText(t) && Initial(t, s0)
    requires var s := Run(t, s0, es);
             && SameTerm(t, s, term) && Retries(t, s, term) < TwoTo32
             && |s.past.locks| <= i < j < |Run(t, s, term).past.locks|
    ensures var locks := Run(t, Run(t, s0, es), term).past.locks;
            locks[i].round != locks[j].round
  {
    var s := Run(t, s0, es);
    var r := Run(t, s, term);
    Reachable(t, s0, es);
    InvRun(t, s, term);
    TermRun(t, s, term);
    LockRounds(t, s, r, Retries(t, s, term), i, j);
  }

  lemma LockRounds(t: Texts, s: State, r: State, k: nat, i: nat, j: nat)
    requires TermOf(s, r, k) && k < TwoTo32 && LockInv(t, r) && |s.past.locks| <= i < j < |r.past.locks|
    ensures r.past.locks[i].round != r.past.locks[j].round
  {
    var a, b := r.past.locks[i].epoch - s.past.epoch, r.past.locks[j].epoch - s.past.epoch;
    assert r.past.locks[i].epoch != r.past.locks[j].epoch;
    RoundsDiffer(s.prop.round, a, b);
  }
}
