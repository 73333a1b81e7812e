/** The voting protocol comes to rest.  Each round is worth at most three messages per rank other
    than the starter, so when nobody submits any more the channels run empty. */
module VotingProgress {
  import opened Common
  import SkipRing
  import opened VotingNet
  import opened VotingInv
  import opened VotingSteps
  import opened Voting

  function Receives(acts: seq<Action>): nat {
    if acts == [] then 0 else Receives(acts[..|acts| - 1]) + if acts[|acts| - 1].Recv? then 1 else 0
  }

  function Submits(acts: seq<Action>): nat {
    if acts == [] then 0 else Submits(acts[..|acts| - 1]) + if acts[|acts| - 1].Submit? then 1 else 0
  }

  lemma OneMoreAction(acts: seq<Action>, a: Action)
    ensures Receives(acts + [a]) == Receives(acts) + if a.Recv? then 1 else 0
    ensures Submits(acts + [a]) == Submits(acts) + if a.Submit? then 1 else 0
  {
    assert (acts + [a])[..|acts|] == acts;
  }

  // ---- what has been taken ----

  predicate Shaped(net: Net, s: State) {
    Sized(net, s) && |net.parent| == net.n && forall t: nat | t < net.n :: net.parent[t] < net.n
  }

  /** How many messages the first `m` ranks have taken from their parents. */
  function TakenDown(net: Net, s: State, m: nat): nat
    requires Shaped(net, s) && m <= net.n
  {
    if m == 0 then 0
    else TakenDown(net, s, m - 1) + if m - 1 == net.o then 0 else Got(net, s, m - 1)
  }

  /** All messages taken: those from above and the counted votes. */
  function Work(net: Net, s: State): nat
    requires Shaped(net, s)
  {
    TakenDown(net, s, net.n) + |s.h.counted|
  }

  lemma {:induction false} TakenDownSame(net: Net, s: State, f: State, m: nat)
    requires Shaped(net, s) && Shaped(net, f) && m <= net.n
    requires forall t: nat | t < net.n && t != net.o :: Got(net, f, t) == Got(net, s, t)
    ensures TakenDown(net, f, m) == TakenDown(net, s, m)
  {
    if m > 0 {
      TakenDownSame(net, s, f, m - 1);
    }
  }

  lemma {:induction false} TakenDownMore(net: Net, s: State, f: State, d: nat, m: nat)
    requires Shaped(net, s) && Shaped(net, f) && m <= net.n && d < net.n && d != net.o
    requires forall t: nat | t < net.n && t != net.o ::
      Got(net, f, t) == Got(net, s, t) + if t == d then 1 else 0
    ensures TakenDown(net, f, m) == TakenDown(net, s, m) + if d < m then 1 else 0
  {
    if m > 0 {
      TakenDownMore(net, s, f, d, m - 1);
    }
  }

  predicate SameTaken(c: Channels, d: Channels) {
    forall e | e in c :: e in d && d[e].taken == c[e].taken
  }

  lemma SendTakesNothing(c: Channels, src: nat, to: set<nat>, m: Msg)
    ensures SameTaken(c, SendAll(c, src, to, m))
  {
  }

  lemma ProposalTakesNothing(net: Net, s: State, src: nat, dst: nat, k: nat, judgement: bool)
    requires Sized(net, s) && dst < net.n
    ensures SameTaken(s.chan, OnProposal(net, s, src, dst, k, judgement).chan)
  {
    var to := net.forward(dst, src);
    SendTakesNothing(s.chan, dst, {src}, Vote(k, false));
    SendTakesNothing(s.chan, dst, to, Proposal(k));
    SendTakesNothing(SendAll(s.chan, dst, to, Proposal(k)), dst, {src}, Vote(k, true));
  }

  lemma VoteTakesNothing(net: Net, s: State, src: nat, dst: nat, k: nat, yes: bool, judgement: bool)
    requires Sized(net, s) && dst < net.n
    ensures SameTaken(s.chan, OnVote(net, s, src, dst, k, yes, judgement).chan)
  {
    if dst == net.o {
      SendTakesNothing(s.chan, net.o, net.initial, Decision(s.round, s.own.vote && yes && judgement));
    } else if s.pending[dst] != [] {
      var first := s.pending[dst][0];
      SendTakesNothing(s.chan, dst, {first.voteTo}, Vote(first.round, first.vote && yes));
    }
  }

  lemma DecisionTakesNothing(net: Net, s: State, src: nat, dst: nat, k: nat, yes: bool)
    requires Sized(net, s) && dst < net.n
    ensures SameTaken(s.chan, OnDecision(net, s, src, dst, k, yes).chan)
  {
    SendTakesNothing(s.chan, dst, net.forward(dst, src), Decision(k, yes));
  }

  /** Handlers send but take nothing more. */
  lemma OnlyHeadTaken(net: Net, s: State, src: nat, dst: nat, judgement: bool)
    requires Enabled(net, s, Recv(src, dst, judgement))
    ensures SameTaken(Take(net, s, src, dst).chan, Apply(net, s, Recv(src, dst, judgement)).chan)
  {
    var t := Take(net, s, src, dst);
    match s.chan[(src, dst)].Head()
    case Proposal(k) => ProposalTakesNothing(net, t, src, dst, k, judgement);
    case Vote(k, yes) => VoteTakesNothing(net, t, src, dst, k, yes, judgement);
    case Decision(k, yes) => DecisionTakesNothing(net, t, src, dst, k, yes);
  }

  lemma CountedAfter(net: Net, s: State, src: nat, dst: nat, judgement: bool)
    requires Enabled(net, s, Recv(src, dst, judgement))
    ensures var m := s.chan[(src, dst)].Head();
      Apply(net, s, Recv(src, dst, judgement)).h.counted
        == if m.Vote? then s.h.counted + {Key(m.round, src)} else s.h.counted
  {
  }

  /** Counted votes are of begun rounds, from ranks other than the starter. */
  predicate CountedOk(net: Net, s: State) {
    forall key | key in s.h.counted :: 1 <= key.round <= s.round && key.rank < net.n && key.rank != net.o
  }

  lemma RoundStays(net: Net, s: State, src: nat, dst: nat, judgement: bool)
    requires Enabled(net, s, Recv(src, dst, judgement))
    ensures Apply(net, s, Recv(src, dst, judgement)).round == s.round
  {
  }

  /** A ballot is of a round that has begun. */
  lemma BallotRound(net: Net, s: State, t: nat)
    requires Inv(net, s) && t < net.n && t != net.o && BallotOut(s, t)
    ensures s.round >= 1
  {
    assert CastAt(net, s.h, t, s.round) && JudgedAt(net, s, t, s.round);
    RoundBound(net, s, net.parent[t], s.round);
  }

  lemma GotAfter(net: Net, s: State, src: nat, dst: nat, judgement: bool, f: State, t: nat)
    requires Shaped(net, s) && Sized(net, f) && Enabled(net, s, Recv(src, dst, judgement)) && t < net.n
    requires SameTaken(Take(net, s, src, dst).chan, f.chan)
    ensures Got(net, f, t) == Got(net, s, t) + if (net.parent[t], t) == (src, dst) then 1 else 0
  {
    assert (net.parent[t], t) in Take(net, s, src, dst).chan;
  }

  /** Each delivery is one more message taken. */
  lemma RecvWorks(net: Net, s: State, src: nat, dst: nat, judgement: bool)
    requires Inv(net, s) && CountedOk(net, s) && Enabled(net, s, Recv(src, dst, judgement))
    requires Sized(net, Apply(net, s, Recv(src, dst, judgement)))
    ensures var f := Apply(net, s, Recv(src, dst, judgement));
      CountedOk(net, f) && Work(net, f) == Work(net, s) + 1
  {
    var f := Apply(net, s, Recv(src, dst, judgement));
    var m := s.chan[(src, dst)].Head();
    HeadKind(net, s, src, dst);
    CountedAfter(net, s, src, dst, judgement);
    RoundStays(net, s, src, dst, judgement);
    OnlyHeadTaken(net, s, src, dst, judgement);
    if m.Vote? {
      TreeEdge(net, dst, src);
      BallotRound(net, s, src);
      VoteWorks(net, s, src, dst, judgement, f, m.round);
    } else {
      DownWorks(net, s, src, dst, judgement, f);
    }
  }

  lemma VoteWorks(net: Net, s: State, src: nat, dst: nat, judgement: bool, f: State, k: nat)
    requires Shaped(net, s) && Sized(net, f) && Enabled(net, s, Recv(src, dst, judgement))
    requires SameTaken(Take(net, s, src, dst).chan, f.chan) && (dst != net.o ==> net.parent[dst] != src)
    requires Key(k, src) !in s.h.counted && f.h.counted == s.h.counted + {Key(k, src)}
    ensures Work(net, f) == Work(net, s) + 1
  {
    forall t: nat | t < net.n && t != net.o
      ensures Got(net, f, t) == Got(net, s, t)
    {
      GotAfter(net, s, src, dst, judgement, f, t);
    }
    TakenDownSame(net, s, f, net.n);
  }

  lemma DownWorks(net: Net, s: State, src: nat, dst: nat, judgement: bool, f: State)
    requires Shaped(net, s) && Sized(net, f) && Enabled(net, s, Recv(src, dst, judgement))
    requires SameTaken(Take(net, s, src, dst).chan, f.chan) && dst != net.o && net.parent[dst] == src
    requires f.h.counted == s.h.counted
    ensures Work(net, f) == Work(net, s) + 1
  {
    forall t: nat | t < net.n && t != net.o
      ensures Got(net, f, t) == Got(net, s, t) + if t == dst then 1 else 0
    {
      GotAfter(net, s, src, dst, judgement, f, t);
    }
    TakenDownMore(net, s, f, dst, net.n);
  }

  lemma SubmitWorks(net: Net, s: State)
    requires Inv(net, s) && CountedOk(net, s) && Sized(net, OnSubmit(net, s))
    ensures var f := OnSubmit(net, s);
      CountedOk(net, f) && f.round == s.round + 1 && Work(net, f) == Work(net, s)
  {
    TakenDownSame(net, s, OnSubmit(net, s), net.n);
  }

  lemma {:induction false} NothingTaken(net: Net, m: nat)
    requires Shaped(net, Init(net)) && m <= net.n
    ensures TakenDown(net, Init(net), m) == 0
  {
    if m > 0 {
      NothingTaken(net, m - 1);
    }
  }

  lemma {:induction false} RunWorks(net: Net, acts: seq<Action>)
    requires WellNet(net) && Run(net, acts).Some?
    ensures var s := Run(net, acts).value;
      && Inv(net, s) && CountedOk(net, s)
      && Work(net, s) == Receives(acts) && s.round == Submits(acts)
  {
    RunInv(net, acts);
    if acts == [] {
      NothingTaken(net, net.n);
    } else {
      var front := acts[..|acts| - 1];
      RunWorks(net, front);
      var s := Run(net, front).value;
      match acts[|acts| - 1]
      case Submit => SubmitWorks(net, s);
      case Recv(src, dst, judgement) =>
        RecvWorks(net, s, src, dst, judgement);
        RoundStays(net, s, src, dst, judgement);
    }
  }

  // ---- how much there is to take ----

  /** Between two decisions there is at most one proposal. */
  lemma {:induction false} LogLength(log: seq<Msg>)
    requires Ordered(log)
    ensures |log| <= 2 * CountD(log) + if Open(log) != 0 then 1 else 0
    decreases |log|
  {
    if log != [] {
      var last := |log| - 1;
      OrderedPrefix(log, last);
      LogLength(log[..last]);
      assert OrderedAt(log, last);
    }
  }

  lemma TwoEachRound(net: Net, s: State, r: nat)
    requires Inv(net, s) && r < net.n
    ensures |s.h.out[r]| <= 2 * s.round
  {
    var log := s.h.out[r];
    assert r != net.o ==> LogAt(net, s, r);
    LogLength(log);
    if r == net.o {
      assert CountD(log) <= s.round;
    } else {
      CountBound(net, s, r);
    }
    if Open(log) != 0 {
      OpenRound(log);
      RoundBound(net, s, r, Open(log));
    }
  }

  lemma {:induction false} TakenDownBound(net: Net, s: State, m: nat)
    requires Inv(net, s) && m <= net.n
    ensures TakenDown(net, s, m) <= (if net.o < m then m - 1 else m) * (2 * s.round)
  {
    if m > 0 {
      TakenDownBound(net, s, m - 1);
      if m - 1 != net.o {
        TwoEachRound(net, s, net.parent[m - 1]);
        OneMoreTimes(if net.o < m - 1 then m - 2 else m - 1, 2 * s.round);
      }
    }
  }

  lemma OneMoreTimes(a: nat, b: nat)
    ensures (a + 1) * b == a * b + b
  {
  }

  lemma {:induction false} RanksOf(keys: set<Key>, k: nat, ranks: set<nat>)
    requires forall key | key in keys :: key.round == k && key.rank in ranks
    ensures |keys| <= |ranks|
    decreases |keys|
  {
    if keys != {} {
      var key :| key in keys;
      RanksOf(keys - {key}, k, ranks - {key.rank});
    }
  }

  lemma {:induction false} KeysBound(keys: set<Key>, ranks: set<nat>, r: nat)
    requires forall key | key in keys :: 1 <= key.round <= r && key.rank in ranks
    ensures |keys| <= r * |ranks|
  {
    if r == 0 {
      assert keys == {};
    } else {
      var last := set key | key in keys && key.round == r;
      RanksOf(last, r, ranks);
      KeysBound(keys - last, ranks, r - 1);
      assert |keys - last| == |keys| - |last|;
      OneMoreTimes(r - 1, |ranks|);
    }
  }

  lemma {:induction false} RanksBelow(m: nat) returns (ranks: set<nat>)
    ensures |ranks| == m && forall t: nat :: t in ranks <==> t < m
  {
    ranks := {};
    if m > 0 {
      var fewer := RanksBelow(m - 1);
      ranks := fewer + {m - 1};
    }
  }

  function Limit(n: nat, rounds: nat): int {
    3 * (n - 1) * rounds
  }

  /** Two messages down each tree edge and one vote up, for every round begun. */
  lemma WorkBound(net: Net, s: State)
    requires Inv(net, s) && CountedOk(net, s)
    ensures Work(net, s) <= Limit(net.n, s.round)
  {
    TakenDownBound(net, s, net.n);
    var all := RanksBelow(net.n);
    assert |all - {net.o}| == net.n - 1;
    KeysBound(s.h.counted, all - {net.o}, s.round);
    ThreeTimes(net.n - 1, s.round);
  }

  lemma ThreeTimes(a: nat, b: nat)
    ensures a * (2 * b) + b * a == 3 * a * b
  {
  }

  // ---- every run of a starter's rounds ----

  lemma NetBound(net: Net, acts: seq<Action>)
    requires WellNet(net) && Run(net, acts).Some?
    ensures Receives(acts) <= Limit(net.n, Submits(acts))
  {
    RunWorks(net, acts);
    WorkBound(net, Run(net, acts).value);
  }

  lemma BoundFor(net: Net, n: nat, acts: seq<Action>)
    requires WellNet(net) && net.n == n && Run(net, acts).Some?
    ensures Receives(acts) <= 3 * (n - 1) * Submits(acts)
  {
    NetBound(net, acts);
  }

  /** In a run with `k` submissions at most `3(n - 1)k` messages are ever delivered. */
  lemma ReceivesBounded(n: nat, o: nat, acts: seq<Action>)
    requires n >= 2 && o < n && Run(SkipRingNet(n, o), acts).Some?
    ensures Receives(acts) <= 3 * (n - 1) * Submits(acts)
  {
    SkipRingIsWell(n, o);
    BoundFor(SkipRingNet(n, o), n, acts);
  }

  ghost predicate OnlyReceives(acts: seq<Action>) {
    forall a | a in acts :: a.Recv?
  }

  lemma SomeMessage(net: Net, s: State) returns (a: Action)
    requires Sized(net, s) && !Idle(net.n, s)
    ensures a.Recv? && Enabled(net, s, a)
  {
    var x: nat, y: nat :| x < net.n && y < net.n && (x, y) in s.chan && s.chan[(x, y)].Waiting();
    a := Recv(x, y, true);
  }

  lemma OneMoreStep(net: Net, acts: seq<Action>, a: Action)
    requires Run(net, acts).Some? && Enabled(net, Run(net, acts).value, a)
    ensures Run(net, acts + [a]).Some?
  {
    assert (acts + [a])[..|acts|] == acts;
  }

  lemma Regroup(before: seq<Action>, a: Action, after: seq<Action>)
    ensures before + ([a] + after) == before + [a] + after
  {
  }

  lemma NothingMore(acts: seq<Action>)
    ensures acts + [] == acts
  {
  }

  lemma {:induction false} NetDrains(net: Net, acts: seq<Action>) returns (more: seq<Action>, s: State)
    requires WellNet(net) && Run(net, acts).Some?
    ensures OnlyReceives(more) && Run(net, acts + more) == Some(s) && Idle(net.n, s)
    decreases Limit(net.n, Submits(acts)) - Receives(acts)
  {
    s := Run(net, acts).value;
    if Idle(net.n, s) {
      more := [];
      NothingMore(acts);
    } else {
      RunInv(net, acts);
      var a := SomeMessage(net, s);
      OneMoreStep(net, acts, a);
      OneMoreAction(acts, a);
      NetBound(net, acts + [a]);
      var rest;
      rest, s := NetDrains(net, acts + [a]);
      more := [a] + rest;
      Regroup(acts, a, rest);
    }
  }

  /** Every run can be brought to rest by deliveries alone, and then the starter has decided and all
      ranks have taken all decisions. */
  lemma CanDrain(n: nat, o: nat, acts: seq<Action>) returns (more: seq<Action>, s: State)
    requires n >= 2 && o < n && Run(SkipRingNet(n, o), acts).Some?
    ensures OnlyReceives(more) && Run(SkipRingNet(n, o), acts + more) == Some(s)
    ensures Idle(n, s) && s.own.decided
    ensures forall k: nat, t: nat | t < n && t != o :: Key(k, t) in s.h.outcome <==> 1 <= k <= s.round
  {
    SkipRingIsWell(n, o);
    more, s := NetDrains(SkipRingNet(n, o), acts);
    NeverStuck(n, o, s);
  }
}
