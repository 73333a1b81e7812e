/** The voting protocol on the skip ring: the results about every run of one starter's
    successive rounds, whatever the judgements and the interleaving. */
module Voting {
  import opened Common
  import SkipRing
  import opened VotingNet
  import opened VotingInv
  import opened VotingSteps
  import opened VotingBallots

  /** The skip ring seen from starter `o`: RLO_bcast_gen at the starter, _bc_forward elsewhere. */
  function SkipRingNet(n: nat, o: nat): Net
    requires n >= 2 && o < n
  {
    Net(n, o,
        Elements(SkipRing.Initial(n, o)),
        (r: nat, source: nat) => Elements(SkipRing.Forwards(n, r, o, source)),
        seq(n, t requires 0 <= t < n => if t == o then 0 else SkipRing.Parent(n, o, t)),
        seq(n, t requires 0 <= t < n => SkipRing.Distance(n, o, t)))
  }

  lemma SkipRingIsWell(n: nat, o: nat)
    requires n >= 2 && o < n
    ensures WellNet(SkipRingNet(n, o))
  {
    var net := SkipRingNet(n, o);
    SkipRing.InitialSends(n, o);
    assert net.initial == Kids(net, o);
    forall t: nat | t < n && t != o
      ensures TreeStep(net, t)
    {
      SkipRing.ParentIsCloser(n, o, t);
      SkipRing.ForwardSends(n, o, t);
      assert net.forward(t, net.parent[t]) == Kids(net, t);
    }
  }

  /** The votes a rank waits for are as many as the sends fwd_send_cnt counts. */
  lemma VotesNeededAreSends(n: nat, o: nat, t: nat)
    requires n >= 2 && o < n && t < n && t != o
    ensures var net := SkipRingNet(n, o);
      |net.forward(t, net.parent[t])| == |SkipRing.ForwardSlots(n, t, o, SkipRing.Parent(n, o, t))|
  {
    SkipRing.ForwardSends(n, o, t);
    ElementCount(SkipRing.Forwards(n, t, o, SkipRing.Parent(n, o, t)));
  }

  // ---------------------------------------------------------------- reachable states

  ghost predicate Reachable(n: nat, o: nat, s: State) {
    n >= 2 && o < n && exists acts :: Run(SkipRingNet(n, o), acts) == Some(s)
  }

  lemma ReachableInv(n: nat, o: nat, s: State)
    requires Reachable(n, o, s)
    ensures WellNet(SkipRingNet(n, o)) && Inv(SkipRingNet(n, o), s) && BallotsOk(SkipRingNet(n, o), s)
  {
    var acts :| Run(SkipRingNet(n, o), acts) == Some(s);
    SkipRingIsWell(n, o);
    RunInv(SkipRingNet(n, o), acts);
    RunBallots(SkipRingNet(n, o), acts);
  }

  // ---------------------------------------------------------------- safety

  /** A yes of the starter's children means a yes everywhere. */
  lemma {:induction false} YesGoesDown(net: Net, s: State, k: nat, t: nat)
    requires Base(net, s) && CastOk(net, s) && t < net.n && t != net.o
    requires Votes(net, s.h.counted, k, net.o) == Kids(net, net.o) && AllYes(net, s.h, k, net.o)
    ensures True(s.h.cast, k, t) && True(s.h.judged, k, t)
    decreases net.depth[t]
  {
    var p := net.parent[t];
    assert TreeStep(net, t);
    if p != net.o {
      YesGoesDown(net, s, k, p);
      assert CastAt(net, s.h, p, k);
    }
    assert t in Kids(net, p);
    assert CastAt(net, s.h, t, k);
  }

  /** A no vote stems from a rank that judged no. */
  lemma {:induction false} NoComesFromSomewhere(net: Net, s: State, k: nat, t: nat) returns (c: nat)
    requires Base(net, s) && CastOk(net, s) && t < net.n && t != net.o
    requires Key(k, t) in s.h.cast && !s.h.cast[Key(k, t)]
    ensures c < net.n && c != net.o && Key(k, c) in s.h.judged && !s.h.judged[Key(k, c)]
    decreases net.n - net.depth[t]
  {
    assert TreeStep(net, t);
    assert CastAt(net, s.h, t, k);
    if s.h.judged[Key(k, t)] {
      var kid :| kid in Votes(net, s.h.counted, k, t) && !True(s.h.cast, k, kid);
      assert TreeStep(net, kid);
      assert CastAt(net, s.h, kid, k);
      c := NoComesFromSomewhere(net, s, k, kid);
    } else {
      c := t;
    }
  }

  ghost predicate Unanimous(net: Net, s: State, k: nat) {
    && (forall t: nat | t < net.n && t != net.o :: True(s.h.judged, k, t))
    && k in s.h.self && s.h.self[k]
  }

  lemma DecidedUnanimously(net: Net, s: State, k: nat)
    requires Inv(net, s) && k in s.h.decisions
    ensures s.h.decisions[k] <==> Unanimous(net, s, k)
  {
    assert DecidedAt(net, s.h, k);
    if AllYes(net, s.h, k, net.o) {
      forall t: nat | t < net.n && t != net.o
        ensures True(s.h.judged, k, t)
      {
        YesGoesDown(net, s, k, t);
      }
    } else {
      var kid :| kid in Votes(net, s.h.counted, k, net.o) && !True(s.h.cast, k, kid);
      assert CastAt(net, s.h, kid, k);
      var c := NoComesFromSomewhere(net, s, k, kid);
      assert !True(s.h.judged, k, c);
    }
  }

  /** Safety: in every run the decision of a round is yes exactly when every other rank
      received that round's proposal and judged it yes, and the starter's own final judgement
      was yes.  A single no anywhere forces a no, even one that cut off a subtree. */
  lemma DecisionIsUnanimity(n: nat, o: nat, s: State, k: nat)
    requires Reachable(n, o, s) && k in s.h.decisions
    ensures s.h.decisions[k] <==>
      && (forall t: nat | t < n && t != o :: True(s.h.judged, k, t))
      && k in s.h.self && s.h.self[k]
  {
    ReachableInv(n, o, s);
    DecidedUnanimously(SkipRingNet(n, o), s, k);
  }

  /** The starter has sent each of its children one decision of every round it has left behind and
      none of the round under way, and those decisions are the recorded ones. */
  lemma OneDecisionPerRound(n: nat, o: nat, s: State, k: nat, c: nat)
    requires Reachable(n, o, s) && c < n && SkipRing.IsChild(n, o, o, c)
    ensures (o, c) in s.chan
    ensures var finished := if s.own.decided then s.round else s.round - 1;
      && Decisions(s.chan[(o, c)].sent, k) == (if 1 <= k <= finished then 1 else 0)
      && (k in s.h.decisions <==> 1 <= k <= finished)
    ensures forall yes: bool :: Decision(k, yes) in s.chan[(o, c)].sent ==>
      k in s.h.decisions && s.h.decisions[k] == yes
  {
    ReachableInv(n, o, s);
    var net := SkipRingNet(n, o);
    assert IsKid(net, o, c) && WireAt(net, s, o, c);
    OneEach(s.h.out[o], k);
    assert DecisionsKnown(s, o, k);
  }

  /** The decision of round `k` is `yes`, which means that the round was unanimous. */
  ghost predicate Settled(n: nat, o: nat, s: State, k: nat, yes: bool) {
    && k in s.h.decisions && s.h.decisions[k] == yes
    && (yes <==> (forall t: nat | t < n && t != o :: True(s.h.judged, k, t)) && k in s.h.self && s.h.self[k])
  }

  /** A decision the starter has sent a rank is that of the round after those decided before it. */
  lemma SentInOrder(n: nat, o: nat, s: State, c: nat, i: nat)
    requires Reachable(n, o, s) && c < n && (o, c) in s.chan && i < |s.chan[(o, c)].sent|
    requires s.chan[(o, c)].sent[i].Decision?
    ensures var ms := s.chan[(o, c)].sent;
      ms[i].round == CountD(ms[..i]) + 1 && Settled(n, o, s, ms[i].round, ms[i].yes)
  {
    ReachableInv(n, o, s);
    assert WireAt(SkipRingNet(n, o), s, o, c);
    assert OrderedAt(s.h.out[o], i) && DecisionsKnown(s, o, s.h.out[o][i].round);
    DecisionIsUnanimity(n, o, s, s.h.out[o][i].round);
  }

  // ---------------------------------------------------------------- matching

  /** Although all rounds share one proposal id, a decision taken by a rank finds a pending
      proposal exactly when the rank approved that round's proposal, and then it finds that
      very proposal.  So a decision of yes is always found, and one not found is a no. */
  lemma DecisionMatchesItsRound(n: nat, o: nat, s: State, k: nat, t: nat)
    requires Reachable(n, o, s) && t < n && t != o && Key(k, t) in s.h.outcome
    ensures s.h.outcome[Key(k, t)] ==
      if True(s.h.judged, k, t) then Some(k) else None
    ensures k in s.h.decisions
    ensures s.h.decisions[k] ==> s.h.outcome[Key(k, t)] == Some(k)
    ensures s.h.outcome[Key(k, t)] == None ==> !s.h.decisions[k]
  {
    ReachableInv(n, o, s);
    var net := SkipRingNet(n, o);
    assert OutcomeAt(net, s, t, k);
    CountBound(net, s, t);
    DecisionIsUnanimity(n, o, s, k);
  }

  /** A decision at the head of a channel comes from the rank's parent, and if it is a yes the
      proposal it is about is pending. */
  lemma YesIsAwaited(n: nat, o: nat, s: State, src: nat, dst: nat)
    requires Reachable(n, o, s) && src < n && dst < n && (src, dst) in s.chan
    requires s.chan[(src, dst)].Waiting() && s.chan[(src, dst)].Head().Decision?
    ensures dst != o && src == SkipRing.Parent(n, o, dst) && |s.pending| == n
    ensures s.chan[(src, dst)].Head().yes ==> s.pending[dst] != []
  {
    ReachableInv(n, o, s);
    var net := SkipRingNet(n, o);
    HeadKind(net, s, src, dst);
    var k := s.chan[(src, dst)].Head().round;
    if s.chan[(src, dst)].Head().yes {
      assert DecisionsKnown(s, src, k);
      DecidedUnanimously(net, s, k);
      ApprovedIsPending(net, s, dst, k);
    }
  }

  /** What a rank approved stays pending until the decision of that round is taken. */
  lemma ApprovedIsPending(net: Net, s: State, t: nat, k: nat)
    requires Inv(net, s) && t < net.n && t != net.o && True(s.h.judged, k, t)
    requires Got(net, s, t) < |s.h.out[net.parent[t]]|
    requires var m := s.h.out[net.parent[t]][Got(net, s, t)]; m.Decision? && m.round == k
    ensures s.pending[t] != []
  {
    var log := s.h.out[net.parent[t]];
    assert JudgedAt(net, s, t, k) && LogAt(net, s, t);
    assert net.parent[t] != net.o ==> LogAt(net, s, net.parent[t]);
    OrderedPrefix(log, Got(net, s, t));
    assert OrderedAt(log, Got(net, s, t));
    OpenIs(Taken(net, s, t), k);
    assert s.pending[t] == Expected(net, s, t);
  }

  // ---------------------------------------------------------------- progress

  /** While a rank waits, the votes it needs are those it has taken, those in the channels to it and
      those its children have not sent; it needs as many as its forward made sends, and waits for
      one proposal at a time. */
  lemma VotesAreConserved(n: nat, o: nat, s: State, t: nat, e: Entry)
    requires Reachable(n, o, s) && t < n && t != o && t < |s.pending| && e in s.pending[t]
    ensures var net := SkipRingNet(n, o); |net.parent| == n && Sized(net, s)
    ensures s.pending[t] == [e] && e.voteTo == SkipRing.Parent(n, o, t)
    ensures e.needed == |SkipRing.ForwardSlots(n, t, o, SkipRing.Parent(n, o, t))|
    ensures var net := SkipRingNet(n, o);
      e.needed == e.recved + |UnderWay(net, s, e.round, t)| + |Unsent(net, s, e.round, t)|
  {
    ReachableInv(n, o, s);
    var net := SkipRingNet(n, o);
    assert s.pending[t] == Expected(net, s, t);
    WireSplits(net, s, e.round, t);
    VotesNeededAreSends(n, o, t);
    assert TreeStep(net, t);
  }

  /** The same at the starter until it decides. */
  lemma OwnVotesAreConserved(n: nat, o: nat, s: State)
    requires Reachable(n, o, s) && !s.own.decided
    ensures var net := SkipRingNet(n, o); |net.parent| == n && Sized(net, s)
    ensures s.own.needed == |SkipRing.Initial(n, o)|
    ensures var net := SkipRingNet(n, o);
      s.own.needed == s.own.recved + |UnderWay(net, s, s.round, o)| + |Unsent(net, s, s.round, o)|
  {
    ReachableInv(n, o, s);
    WireSplits(SkipRingNet(n, o), s, s.round, o);
    SkipRing.InitialSends(n, o);
    ElementCount(SkipRing.Initial(n, o));
  }

  /** Each receipt of a proposal yields at most one vote: a rank sends its parent at most one ballot
      of a round, only after it has received and judged that round's proposal, and sends none to
      anybody else. */
  lemma OneVotePerReceipt(n: nat, o: nat, s: State, k: nat, t: nat, b: nat)
    requires Reachable(n, o, s) && t < n && t != o && b < n
    ensures (t, b) in s.chan
    ensures Ballots(s.chan[(t, b)].sent, k) <=
      if b == SkipRing.Parent(n, o, t) && Key(k, t) in s.h.judged then 1 else 0
  {
    ReachableInv(n, o, s);
    var net := SkipRingNet(n, o);
    assert BallotAt(net, s, t, k) && CastAt(net, s.h, t, k) && WireAt(net, s, t, b);
    if b != net.parent[t] {
      assert LogAt(net, s, t);
      NoBallots(s.h.out[t], k);
    }
  }

  lemma {:induction false} NoBallots(log: seq<Msg>, k: nat)
    requires Ordered(log)
    ensures Ballots(log, k) == 0
    decreases |log|
  {
    if log != [] {
      OrderedPrefix(log, |log| - 1);
      NoBallots(log[..|log| - 1], k);
      assert OrderedAt(log, |log| - 1);
    }
  }

  ghost predicate Idle(n: nat, s: State) {
    forall a: nat, b: nat | a < n && b < n && (a, b) in s.chan :: !s.chan[(a, b)].Waiting()
  }

  /** With nothing on its way, each rank has taken all its parent sent. */
  lemma IdleHasTaken(net: Net, s: State, t: nat)
    requires Inv(net, s) && Idle(net.n, s) && t < net.n && t != net.o
    ensures Taken(net, s, t) == s.h.out[net.parent[t]] && !BallotOut(s, t)
  {
    TreeEdge(net, net.parent[t], t);
    assert WireAt(net, s, net.parent[t], t);
    assert WireAt(net, s, t, net.parent[t]);
    assert !s.chan[(net.parent[t], t)].Waiting();
    assert !s.chan[(t, net.parent[t])].Waiting();
  }

  /** With nothing on its way, nobody is still waiting for a vote. */
  lemma {:induction false} IdleHasCounted(net: Net, s: State, t: nat)
    requires Inv(net, s) && Idle(net.n, s) && t < net.n && t != net.o
    requires Proposal(s.round) in s.h.out[net.parent[t]]
    ensures Key(s.round, t) in s.h.counted
    decreases net.n - (if t < |net.depth| && net.depth[t] < net.n then net.depth[t] else 0)
  {
    var k := s.round;
    assert TreeStep(net, t);
    IdleHasTaken(net, s, t);
    assert JudgedAt(net, s, t, k) && CastAt(net, s.h, t, k);
    if Key(k, t) !in s.h.cast {
      forall c | c in Kids(net, t)
        ensures c in Votes(net, s.h.counted, k, t)
      {
        assert TreeStep(net, c);
        IdleHasCounted(net, s, c);
      }
    }
  }

  /** With nothing on its way, each rank has relayed every decision of the starter. */
  lemma {:induction false} IdleHasSettled(net: Net, s: State, t: nat)
    requires Inv(net, s) && Idle(net.n, s) && t < net.n
    ensures CountD(s.h.out[t]) == CountD(s.h.out[net.o])
    decreases if t < |net.depth| then net.depth[t] else 0
  {
    if t != net.o {
      assert TreeStep(net, t);
      IdleHasTaken(net, s, t);
      assert LogAt(net, s, t);
      IdleHasSettled(net, s, net.parent[t]);
    }
  }

  /** The protocol never gets stuck: with no message left anywhere the starter has decided
      the round under way, and every other rank has taken the decision of every round. */
  lemma NeverStuck(n: nat, o: nat, s: State)
    requires Reachable(n, o, s) && Idle(n, s)
    ensures s.own.decided
    ensures forall k: nat, t: nat | t < n && t != o :: Key(k, t) in s.h.outcome <==> 1 <= k <= s.round
  {
    ReachableInv(n, o, s);
    var net := SkipRingNet(n, o);
    if !s.own.decided {
      forall c | c in Kids(net, o)
        ensures c in Votes(net, s.h.counted, s.round, o)
      {
        IdleHasCounted(net, s, c);
      }
    }
    forall k: nat, t: nat | t < n && t != o
      ensures Key(k, t) in s.h.outcome <==> 1 <= k <= s.round
    {
      IdleHasSettled(net, s, t);
      assert OutcomeAt(net, s, t, k);
    }
  }

  /** Then no rank has a proposal pending. */
  lemma IdleMeansNonePending(n: nat, o: nat, s: State, t: nat)
    requires Reachable(n, o, s) && Idle(n, s) && t < n
    ensures t < |s.pending| && s.pending[t] == []
  {
    ReachableInv(n, o, s);
    NeverStuck(n, o, s);
    var net := SkipRingNet(n, o);
    if t != o {
      IdleHasSettled(net, s, t);
      assert LogAt(net, s, t);
      if Open(s.h.out[t]) != 0 {
        OpenRound(s.h.out[t]);
        RoundBound(net, s, t, Open(s.h.out[t]));
      }
    }
  }

  // ---------------------------------------------------------------- relaying

  /** How many decisions of yes are among these messages. */
  function YesCount(ms: seq<Msg>): nat {
    if ms == [] then 0
    else
      YesCount(ms[..|ms| - 1]) + if ms[|ms| - 1].Decision? && ms[|ms| - 1].yes then 1 else 0
  }

  /** How many of the first `k` rounds were decided yes. */
  function YesRounds(decisions: map<nat, bool>, k: nat): nat {
    if k == 0 then 0 else YesRounds(decisions, k - 1) + if k in decisions && decisions[k] then 1 else 0
  }

  ghost predicate AsDecided(log: seq<Msg>, decisions: map<nat, bool>) {
    forall i | 0 <= i < |log| && log[i].Decision? ::
      log[i].round in decisions && decisions[log[i].round] == log[i].yes
  }

  lemma {:induction false} YesOfLog(log: seq<Msg>, decisions: map<nat, bool>)
    requires Ordered(log) && AsDecided(log, decisions)
    ensures YesCount(log) == YesRounds(decisions, CountD(log))
    decreases |log|
  {
    if log != [] {
      var last := |log| - 1;
      OrderedPrefix(log, last);
      YesOfLog(log[..last], decisions);
      assert OrderedAt(log, last);
    }
  }

  /** With nothing on its way, each rank has been sent a yes for every round the starter decided yes. */
  lemma IdleRelaysYes(n: nat, o: nat, s: State, t: nat)
    requires Reachable(n, o, s) && Idle(n, s) && t < n && t != o
    ensures var e := (SkipRing.Parent(n, o, t), t);
      e in s.chan && YesCount(s.chan[e].sent) == YesRounds(s.h.decisions, s.round)
  {
    ReachableInv(n, o, s);
    NeverStuck(n, o, s);
    var net := SkipRingNet(n, o);
    var p := net.parent[t];
    var log := s.h.out[p];
    TreeEdge(net, p, t);
    assert WireAt(net, s, p, t);
    assert p != o ==> LogAt(net, s, p);
    IdleHasSettled(net, s, p);
    forall i | 0 <= i < |log| && log[i].Decision?
      ensures log[i].round in s.h.decisions && s.h.decisions[log[i].round] == log[i].yes
    {
      assert DecisionsKnown(s, p, log[i].round);
    }
    YesOfLog(log, s.h.decisions);
  }

  // ---------------------------------------------------------------- refusals

  /** The rounds whose decision found nothing pending at `t`. */
  function Unfound(h: History, t: nat): set<nat> {
    set q | q in h.outcome && q.rank == t && h.outcome[q].None? :: q.round
  }

  /** The rounds up to `k` whose proposal `t` has refused or never received. */
  function Refusals(judged: map<Key, bool>, t: nat, k: nat): set<nat> {
    set j: nat | 1 <= j <= k && !True(judged, j, t)
  }

  lemma UnfoundAreRefusals(net: Net, s: State, t: nat)
    requires Inv(net, s) && t < net.n && t != net.o
    ensures Unfound(s.h, t) == Refusals(s.h.judged, t, CountD(s.h.out[t]))
  {
    forall k: nat
      ensures k in Unfound(s.h, t) <==> k in Refusals(s.h.judged, t, CountD(s.h.out[t]))
    {
      assert OutcomeAt(net, s, t, k);
      assert k in Unfound(s.h, t) <==> Key(k, t) in s.h.outcome && s.h.outcome[Key(k, t)].None?;
    }
  }

  lemma ProposalKeepsOutcome(net: Net, s: State, src: nat, dst: nat, k: nat, judgement: bool)
    requires Sized(net, s) && dst < net.n
    ensures OnProposal(net, s, src, dst, k, judgement).h.outcome == s.h.outcome
  {
  }

  lemma VoteKeepsOutcome(net: Net, s: State, src: nat, dst: nat, k: nat, yes: bool, judgement: bool)
    requires Sized(net, s) && dst < net.n
    ensures OnVote(net, s, src, dst, k, yes, judgement).h.outcome == s.h.outcome
  {
  }

  lemma OutcomeAfter(net: Net, s: State, src: nat, dst: nat, judgement: bool)
    requires Enabled(net, s, Recv(src, dst, judgement))
    ensures var m := s.chan[(src, dst)].Head();
      Apply(net, s, Recv(src, dst, judgement)).h.outcome ==
        if m.Decision? then
          s.h.outcome[Key(m.round, dst) :=
                        if s.pending[dst] == [] then None else Some(s.pending[dst][0].round)]
        else s.h.outcome
  {
    var t := Take(net, s, src, dst);
    match s.chan[(src, dst)].Head()
    case Proposal(k) => ProposalKeepsOutcome(net, t, src, dst, k, judgement);
    case Vote(k, yes) => VoteKeepsOutcome(net, t, src, dst, k, yes, judgement);
    case Decision(k, yes) =>
  }

  /** The decision a rank takes is of a round it has taken no decision of yet. */
  lemma DecisionIsNew(net: Net, s: State, src: nat, dst: nat)
    requires Inv(net, s) && src < net.n && dst < net.n && s.chan[(src, dst)].Waiting()
    requires s.chan[(src, dst)].Head().Decision?
    ensures dst != net.o && Key(s.chan[(src, dst)].Head().round, dst) !in s.h.outcome
  {
    HeadKind(net, s, src, dst);
    assert src != net.o ==> LogAt(net, s, src);
    assert LogAt(net, s, dst) && OrderedAt(s.h.out[src], Got(net, s, dst));
    assert OutcomeAt(net, s, dst, s.chan[(src, dst)].Head().round);
  }

  /** Only a decision that finds nothing pending adds to the rounds not found. */
  lemma RecvUnfound(net: Net, s: State, src: nat, dst: nat, judgement: bool, t: nat)
    requires Inv(net, s) && Enabled(net, s, Recv(src, dst, judgement)) && t < net.n && t != net.o
    ensures var m, f := s.chan[(src, dst)].Head(), Apply(net, s, Recv(src, dst, judgement));
      |Unfound(f.h, t)| ==
        |Unfound(s.h, t)| + if m.Decision? && dst == t && s.pending[t] == [] then 1 else 0
  {
    var m, f := s.chan[(src, dst)].Head(), Apply(net, s, Recv(src, dst, judgement));
    OutcomeAfter(net, s, src, dst, judgement);
    if m.Decision? {
      DecisionIsNew(net, s, src, dst);
      UnfoundMore(s.h, f.h, m.round, dst, t, s.pending[dst] == []);
    }
  }

  lemma UnfoundMore(h: History, g: History, k: nat, dst: nat, t: nat, none: bool)
    requires Key(k, dst) !in h.outcome && Key(k, dst) in g.outcome
    requires g.outcome == h.outcome[Key(k, dst) := g.outcome[Key(k, dst)]]
    requires g.outcome[Key(k, dst)].None? <==> none
    ensures |Unfound(g, t)| == |Unfound(h, t)| + if dst == t && none then 1 else 0
  {
    forall j: nat
      ensures j in Unfound(g, t) <==> j in Unfound(h, t) || (j == k && dst == t && none)
    {
      assert j in Unfound(h, t) <==> Key(j, t) in h.outcome && h.outcome[Key(j, t)].None?;
      assert j in Unfound(g, t) <==> Key(j, t) in g.outcome && g.outcome[Key(j, t)].None?;
    }
    if dst == t && none {
      assert Unfound(g, t) == Unfound(h, t) + {k} && k !in Unfound(h, t);
    } else {
      assert Unfound(g, t) == Unfound(h, t);
    }
  }

  /** The decisions a rank has taken off the channel from its parent, by count. */
  lemma TakenDecisions(n: nat, o: nat, s: State, t: nat)
    requires Reachable(n, o, s) && t < n && t != o
    ensures var e := (SkipRing.Parent(n, o, t), t);
      && e in s.chan && s.chan[e].taken <= |s.chan[e].sent|
      && |Unfound(s.h, t)| == |Refusals(s.h.judged, t, CountD(s.chan[e].sent[..s.chan[e].taken]))|
  {
    ReachableInv(n, o, s);
    var net := SkipRingNet(n, o);
    var p := net.parent[t];
    TreeEdge(net, p, t);
    assert WireAt(net, s, p, t) && LogAt(net, s, t);
    UnfoundAreRefusals(net, s, t);
  }

  /** With nothing on its way those are the decisions of all rounds. */
  lemma IdleDecisions(n: nat, o: nat, s: State, t: nat)
    requires Reachable(n, o, s) && Idle(n, s) && t < n && t != o
    ensures |Unfound(s.h, t)| == |Refusals(s.h.judged, t, s.round)|
  {
    ReachableInv(n, o, s);
    NeverStuck(n, o, s);
    var net := SkipRingNet(n, o);
    IdleHasSettled(net, s, t);
    UnfoundAreRefusals(net, s, t);
  }
}
