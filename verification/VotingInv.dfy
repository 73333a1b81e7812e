/** The inductive invariant of the voting protocol and the facts read off it. */
module VotingInv {
  import opened Common
  import opened VotingNet

  // ---------------------------------------------------------------- the tree

  predicate IsKid(net: Net, r: nat, t: nat)
    requires |net.parent| == net.n
  {
    t < net.n && t != net.o && net.parent[t] == r
  }

  /** A parent is closer to the starter, and forwarding from it reaches the children. */
  ghost predicate TreeStep(net: Net, t: nat)
    requires |net.parent| == |net.depth| == net.n && t < net.n && t != net.o
  {
    && net.parent[t] < net.n && net.depth[net.parent[t]] < net.depth[t] < net.n
    && net.forward(t, net.parent[t]) == Kids(net, t)
  }

  /** The targets are those of a spanning tree rooted at the starter. */
  ghost predicate WellNet(net: Net) {
    && net.n >= 2 && net.o < net.n && |net.parent| == |net.depth| == net.n
    && (forall t: nat | t < net.n :: net.parent[t] < net.n)
    && net.initial == Kids(net, net.o)
    && (forall t: nat | t < net.n && t != net.o :: TreeStep(net, t))
  }

  function Kids(net: Net, r: nat): set<nat>
    requires |net.parent| == net.n
  {
    set t: nat | t < net.n && IsKid(net, r, t)
  }

  lemma SubsetCount(a: set<nat>, b: set<nat>)
    requires a <= b
    ensures |a| <= |b|
    ensures |a| == |b| <==> a == b
  {
    assert b == a + (b - a);
  }

  /** The starter has at least one child. */
  lemma {:induction false} RootHasKid(net: Net, t: nat)
    requires WellNet(net) && t < net.n && t != net.o
    ensures Kids(net, net.o) != {}
    decreases net.depth[t]
  {
    assert TreeStep(net, t);
    if net.parent[t] == net.o {
      assert t in Kids(net, net.o);
    } else {
      RootHasKid(net, net.parent[t]);
    }
  }

  // ---------------------------------------------------------------- logs

  function CountD(log: seq<Msg>): nat {
    if log == [] then 0 else CountD(log[..|log| - 1]) + if log[|log| - 1].Decision? then 1 else 0
  }

  /** The round of the proposal the log ends with, 0 when it does not end with one. */
  function Open(log: seq<Msg>): nat {
    if log != [] && log[|log| - 1].Proposal? then log[|log| - 1].round else 0
  }

  ghost predicate OrderedAt(log: seq<Msg>, i: nat)
    requires i < |log|
  {
    && !log[i].Vote?
    && log[i].round == CountD(log[..i]) + 1
    && (log[i].Proposal? ==> Open(log[..i]) == 0)
  }

  /** Rounds in order: at most one proposal, then the decision, then the next round. */
  ghost predicate Ordered(log: seq<Msg>) {
    forall i: nat | i < |log| :: OrderedAt(log, i)
  }

  lemma OrderedExtend(log: seq<Msg>, m: Msg)
    requires Ordered(log) && !m.Vote? && m.round == CountD(log) + 1
    requires m.Proposal? ==> Open(log) == 0
    ensures Ordered(log + [m])
    ensures CountD(log + [m]) == CountD(log) + if m.Decision? then 1 else 0
    ensures Open(log + [m]) == if m.Proposal? then m.round else 0
  {
    var l := log + [m];
    assert l[..|log|] == log;
    forall i: nat | i < |l|
      ensures OrderedAt(l, i)
    {
      if i < |log| {
        assert OrderedAt(log, i);
        assert l[..i] == log[..i];
      }
    }
  }

  lemma {:induction false} CountDMonotone(log: seq<Msg>, i: nat)
    requires i <= |log|
    ensures CountD(log[..i]) <= CountD(log)
    ensures i < |log| && log[i].Decision? ==> CountD(log[..i]) < CountD(log)
    decreases |log|
  {
    if i < |log| {
      var front := log[..|log| - 1];
      assert front[..i] == log[..i];
      CountDMonotone(front, i);
    } else {
      assert log[..i] == log;
    }
  }

  /** Only the decision of its round can follow a proposal. */
  lemma AfterProposal(log: seq<Msg>, i: nat)
    requires Ordered(log) && i + 1 < |log| && log[i].Proposal?
    ensures CountD(log) >= log[i].round
  {
    var upto := log[..i + 1];
    assert upto[..i] == log[..i];
    assert OrderedAt(log, i) && OrderedAt(log, i + 1);
    CountDMonotone(log, i + 1);
  }

  /** A proposal whose round is not decided in the log is its last message. */
  lemma OpenIs(log: seq<Msg>, k: nat)
    requires Ordered(log) && Proposal(k) in log && CountD(log) < k
    ensures Open(log) == k && CountD(log) + 1 == k
  {
    var i: nat :| i < |log| && log[i] == Proposal(k);
    assert OrderedAt(log, i);
    CountDMonotone(log, i);
    if i + 1 < |log| {
      AfterProposal(log, i);
    }
  }

  /** An open proposal belongs to the round after the last decision. */
  lemma OpenRound(log: seq<Msg>)
    requires Ordered(log) && Open(log) != 0
    ensures Open(log) == CountD(log) + 1 && Proposal(Open(log)) in log
  {
    assert OrderedAt(log, |log| - 1);
    assert log[|log| - 1] == Proposal(Open(log));
  }

  /** The next message of an ordered log, when a proposal, has not occurred before. */
  lemma NextProposalIsFresh(log: seq<Msg>, g: nat)
    requires Ordered(log) && g < |log| && log[g].Proposal?
    ensures log[g] !in log[..g]
    ensures Open(log[..g]) == 0
  {
    assert OrderedAt(log, g);
    if log[g] in log[..g] {
      OrderedPrefix(log, g);
      OpenIs(log[..g], log[g].round);
    }
  }

  lemma OrderedPrefix(log: seq<Msg>, g: nat)
    requires Ordered(log) && g <= |log|
    ensures Ordered(log[..g])
  {
    forall i: nat | i < g
      ensures OrderedAt(log[..g], i)
    {
      assert OrderedAt(log, i);
      assert log[..g][..i] == log[..i];
    }
  }

  // ---------------------------------------------------------------- the invariant

  /** How many of its parent's messages `t` has taken. */
  function Got(net: Net, s: State, t: nat): nat
    requires |net.parent| == net.n && t < net.n && (net.parent[t], t) in s.chan
  {
    s.chan[(net.parent[t], t)].taken
  }

  /** What `t` has taken of its parent's messages. */
  function Taken(net: Net, s: State, t: nat): seq<Msg>
    requires |net.parent| == net.n == |s.h.out| && t < net.n && (net.parent[t], t) in s.chan
    requires net.parent[t] < net.n && Got(net, s, t) <= |s.h.out[net.parent[t]]|
  {
    s.h.out[net.parent[t]][..Got(net, s, t)]
  }

  /** Counted children of `r` in round `k`. */
  function Votes(net: Net, counted: set<Key>, k: nat, r: nat): set<nat>
    requires |net.parent| == net.n
  {
    set t: nat | t < net.n && IsKid(net, r, t) && Key(k, t) in counted
  }

  predicate True(m: map<Key, bool>, k: nat, t: nat) {
    Key(k, t) in m && m[Key(k, t)]
  }

  predicate AllYes(net: Net, h: History, k: nat, r: nat)
    requires |net.parent| == net.n
  {
    forall t | t in Votes(net, h.counted, k, r) :: True(h.cast, k, t)
  }

  ghost predicate Base(net: Net, s: State) {
    WellNet(net) && Sized(net, s)
    && forall t: nat | t < net.n && t != net.o :: Got(net, s, t) <= |s.h.out[net.parent[t]]|
  }

  ghost predicate LogAt(net: Net, s: State, t: nat)
    requires Base(net, s) && t < net.n && t != net.o
  {
    var open := Open(Taken(net, s, t));
    && Ordered(s.h.out[t])
    && CountD(s.h.out[t]) == CountD(Taken(net, s, t))
    && Open(s.h.out[t]) == if True(s.h.judged, open, t) then open else 0
  }

  ghost predicate LogsOk(net: Net, s: State)
    requires Base(net, s)
  {
    && Ordered(s.h.out[net.o])
    && forall t: nat | t < net.n && t != net.o :: LogAt(net, s, t)
  }

  ghost predicate JudgedAt(net: Net, s: State, t: nat, k: nat)
    requires Base(net, s) && t < net.n && t != net.o
  {
    && (Key(k, t) in s.h.judged <==> Proposal(k) in Taken(net, s, t))
    && (Proposal(k) in s.h.out[t] <==> True(s.h.judged, k, t))
  }

  ghost predicate JudgedOk(net: Net, s: State)
    requires Base(net, s)
  {
    forall t: nat, k: nat | t < net.n && t != net.o :: JudgedAt(net, s, t, k)
  }

  ghost predicate DecisionsKnown(s: State, r: nat, k: nat)
    requires r < |s.h.out|
  {
    forall v: bool :: Decision(k, v) in s.h.out[r] ==> k in s.h.decisions && s.h.decisions[k] == v
  }

  ghost predicate ScriptOk(net: Net, s: State)
    requires Base(net, s)
  {
    var log := s.h.out[net.o];
    && (s.round == 0 ==> s.own.decided)
    && CountD(log) == (if s.own.decided then s.round else s.round - 1)
    && Open(log) == (if s.own.decided then 0 else s.round)
    && (forall k: nat :: Proposal(k) in log <==> 1 <= k <= s.round)
    && (forall k: nat :: k in s.h.decisions <==> 1 <= k <= CountD(log))
    && (forall r: nat, k: nat | r < net.n :: DecisionsKnown(s, r, k))
  }

  /** The ballot of `t` in the current round is still on its way. */
  predicate BallotOut(s: State, t: nat) {
    Key(s.round, t) in s.h.cast && Key(s.round, t) !in s.h.counted
  }

  /** The pending queue holds exactly the entry of the open proposal, with exact tallies. */
  function Expected(net: Net, s: State, t: nat): seq<Entry>
    requires |net.parent| == net.n == |s.h.out| && t < net.n
  {
    var k := Open(s.h.out[t]);
    if k == 0 then []
    else [Entry(k, net.parent[t], |Kids(net, t)|, |Votes(net, s.h.counted, k, t)|, AllYes(net, s.h, k, t))]
  }

  ghost predicate PendingOk(net: Net, s: State)
    requires Base(net, s)
  {
    && (forall t: nat | t < net.n && t != net.o :: s.pending[t] == Expected(net, s, t))
    && s.pending[net.o] == []
  }

  ghost predicate CastAt(net: Net, h: History, t: nat, k: nat)
    requires |net.parent| == net.n
  {
    && (Key(k, t) in h.counted ==> Key(k, t) in h.cast)
    && (Key(k, t) in h.cast <==>
          Key(k, t) in h.judged && (h.judged[Key(k, t)] ==> Votes(net, h.counted, k, t) == Kids(net, t)))
    && (Key(k, t) in h.cast ==>
          (h.cast[Key(k, t)] <==> h.judged[Key(k, t)] && AllYes(net, h, k, t)))
  }

  ghost predicate CastOk(net: Net, s: State)
    requires Base(net, s)
  {
    forall t: nat, k: nat | t < net.n && t != net.o :: CastAt(net, s.h, t, k)
  }

  /** Only the undecided current round has votes outstanding. */
  ghost predicate CurrentAt(net: Net, s: State, t: nat, k: nat)
    requires Base(net, s) && t < net.n
  {
    Proposal(k) in s.h.out[net.parent[t]] && Key(k, t) !in s.h.counted ==> k == s.round && !s.own.decided
  }

  ghost predicate CurrentOk(net: Net, s: State)
    requires Base(net, s)
  {
    forall t: nat, k: nat | t < net.n && t != net.o :: CurrentAt(net, s, t, k)
  }

  ghost predicate DecidedAt(net: Net, h: History, k: nat)
    requires |net.parent| == net.n
  {
    k in h.decisions ==>
      && Votes(net, h.counted, k, net.o) == Kids(net, net.o)
      && (h.decisions[k] <==> AllYes(net, h, k, net.o) && k in h.self && h.self[k])
  }

  ghost predicate OwnOk(net: Net, s: State)
    requires Base(net, s)
  {
    && (!s.own.decided ==>
          && s.own.needed == |Kids(net, net.o)|
          && s.own.recved == |Votes(net, s.h.counted, s.round, net.o)|
          && s.own.vote == AllYes(net, s.h, s.round, net.o)
          && Votes(net, s.h.counted, s.round, net.o) != Kids(net, net.o))
    && (forall k: nat :: DecidedAt(net, s.h, k))
  }

  ghost predicate OutcomeAt(net: Net, s: State, t: nat, k: nat)
    requires Base(net, s) && t < net.n
  {
    && (Key(k, t) in s.h.outcome <==> 1 <= k <= CountD(s.h.out[t]))
    && (Key(k, t) in s.h.outcome ==>
          s.h.outcome[Key(k, t)] == if True(s.h.judged, k, t) then Some(k) else None)
  }

  ghost predicate OutcomeOk(net: Net, s: State)
    requires Base(net, s)
  {
    forall t: nat, k: nat | t < net.n && t != net.o :: OutcomeAt(net, s, t, k)
  }

  /** What the channel from `a` to `b` carries: on a tree edge down the log of `a`, on a tree
      edge up at most the outstanding ballot of `a`, nothing elsewhere. */
  ghost predicate WireAt(net: Net, s: State, a: nat, b: nat)
    requires Base(net, s) && a < net.n && b < net.n
  {
    var c := s.chan[(a, b)];
    if IsKid(net, a, b) then c.sent == s.h.out[a]
    else if IsKid(net, b, a) then
      if BallotOut(s, a) then c.taken + 1 == |c.sent| && c.Head() == Vote(s.round, s.h.cast[Key(s.round, a)])
      else c.taken == |c.sent|
    else c == Channel([], 0)
  }

  ghost predicate Wires(net: Net, s: State) {
    Base(net, s) && forall a: nat, b: nat | a < net.n && b < net.n :: WireAt(net, s, a, b)
  }

  /** The part of the invariant that does not mention the channels. */
  ghost predicate Rest(net: Net, s: State) {
    && Base(net, s) && LogsOk(net, s) && JudgedOk(net, s) && ScriptOk(net, s)
    && PendingOk(net, s) && CastOk(net, s) && CurrentOk(net, s) && OwnOk(net, s) && OutcomeOk(net, s)
  }

  ghost predicate Inv(net: Net, s: State) {
    Wires(net, s) && Rest(net, s)
  }

  // ---------------------------------------------------------------- consequences

  /** Every proposal anywhere in the tree is of a round the starter has begun. */
  lemma {:induction false} RoundBound(net: Net, s: State, r: nat, k: nat)
    requires Base(net, s) && JudgedOk(net, s) && ScriptOk(net, s)
    requires r < net.n && Proposal(k) in s.h.out[r]
    ensures 1 <= k <= s.round
    decreases net.depth[r]
  {
    if r != net.o {
      assert TreeStep(net, r);
      assert JudgedAt(net, s, r, k);
      RoundBound(net, s, net.parent[r], k);
    }
  }

  /** Nobody has judged, cast or counted anything in a round that has not begun. */
  lemma NothingAhead(net: Net, s: State, k: nat, t: nat)
    requires Base(net, s) && JudgedOk(net, s) && ScriptOk(net, s) && CastOk(net, s)
    requires t < net.n && t != net.o && k > s.round
    ensures Key(k, t) !in s.h.judged && Key(k, t) !in s.h.cast && Key(k, t) !in s.h.counted
  {
    assert CastAt(net, s.h, t, k);
    if Key(k, t) in s.h.judged {
      assert JudgedAt(net, s, t, k);
      RoundBound(net, s, net.parent[t], k);
    }
  }

  /** Once the starter has heard from all its children, every rank the proposal was sent to
      has been heard from. */
  lemma {:induction false} AllCounted(net: Net, s: State, k: nat, t: nat)
    requires Base(net, s) && JudgedOk(net, s) && CastOk(net, s)
    requires Votes(net, s.h.counted, k, net.o) == Kids(net, net.o)
    requires t < net.n && t != net.o && Proposal(k) in s.h.out[net.parent[t]]
    ensures Key(k, t) in s.h.counted
    decreases net.depth[t]
  {
    var p := net.parent[t];
    assert TreeStep(net, t);
    assert t in Kids(net, p);
    if p != net.o {
      assert JudgedAt(net, s, p, k);
      AllCounted(net, s, k, p);
      assert CastAt(net, s.h, p, k);
    }
    assert t in Votes(net, s.h.counted, k, p);
  }

  /** What the head of a channel can be. */
  lemma HeadKind(net: Net, s: State, src: nat, dst: nat)
    requires Inv(net, s) && src < net.n && dst < net.n && s.chan[(src, dst)].Waiting()
    ensures var m := s.chan[(src, dst)].Head();
      if m.Vote? then
        IsKid(net, dst, src) && BallotOut(s, src) && m == Vote(s.round, s.h.cast[Key(s.round, src)])
      else
        && IsKid(net, src, dst) && Got(net, s, dst) < |s.h.out[src]| && m == s.h.out[src][Got(net, s, dst)]
  {
    assert WireAt(net, s, src, dst);
    if IsKid(net, src, dst) {
      assert src != net.o ==> LogAt(net, s, src);
      assert OrderedAt(s.h.out[src], Got(net, s, dst));
    }
  }
}
