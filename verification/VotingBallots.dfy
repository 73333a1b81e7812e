/** Votes and decisions as messages: what the channels have carried and still carry, next to what
    the histories of the protocol record. */
module VotingBallots {
  import opened Common
  import opened VotingNet
  import opened VotingInv
  import opened VotingSteps

  predicate IsBallot(m: Msg, k: nat) {
    m.Vote? && m.round == k
  }

  /** How many ballots of round `k` are among these messages. */
  function Ballots(ms: seq<Msg>, k: nat): nat {
    if ms == [] then 0
    else
      Ballots(ms[..|ms| - 1], k) + if IsBallot(ms[|ms| - 1], k) then 1 else 0
  }

  lemma BallotsMore(ms: seq<Msg>, m: Msg, k: nat)
    ensures Ballots(ms + [m], k) == Ballots(ms, k) + if IsBallot(m, k) then 1 else 0
  {
    assert (ms + [m])[..|ms|] == ms;
  }

  // ---------------------------------------------------------------- each receipt, one vote

  /** Everything `t` has ever sent to its parent. */
  function Upward(net: Net, s: State, t: nat): seq<Msg>
    requires Sized(net, s) && |net.parent| == net.n && t < net.n && net.parent[t] < net.n
  {
    s.chan[(t, net.parent[t])].sent
  }

  /** A rank has sent one ballot of each round it is recorded to have voted in, with that vote. */
  ghost predicate BallotAt(net: Net, s: State, t: nat, k: nat)
    requires WellNet(net) && Sized(net, s) && t < net.n
  {
    && Ballots(Upward(net, s, t), k) == (if Key(k, t) in s.h.cast then 1 else 0)
    && (Key(k, t) in s.h.cast ==> Vote(k, s.h.cast[Key(k, t)]) in Upward(net, s, t))
  }

  ghost predicate BallotsOk(net: Net, s: State) {
    && WellNet(net) && Sized(net, s)
    && forall t: nat, k: nat | t < net.n && t != net.o :: BallotAt(net, s, t, k)
  }

  /** Neither the upward channels nor the recorded votes have changed. */
  lemma SameBallots(net: Net, s: State, f: State)
    requires BallotsOk(net, s) && Sized(net, f) && f.h.cast == s.h.cast
    requires forall t: nat | t < net.n && t != net.o :: Upward(net, f, t) == Upward(net, s, t)
    ensures BallotsOk(net, f)
  {
    forall t: nat, k: nat | t < net.n && t != net.o
      ensures BallotAt(net, f, t, k)
    {
      assert BallotAt(net, s, t, k);
    }
  }

  lemma SpreadBallots(net: Net, s: State, r: nat, to: set<nat>, m: Msg)
    requires BallotsOk(net, s) && r < net.n && to == Kids(net, r)
    ensures BallotsOk(net, Spread(s, r, to, m))
  {
    var f := Spread(s, r, to, m);
    forall t: nat | t < net.n && t != net.o
      ensures Upward(net, f, t) == Upward(net, s, t)
    {
      TreeEdge(net, net.parent[t], t);
    }
    SameBallots(net, s, f);
  }

  lemma VoteBackBallots(net: Net, s: State, r: nat, k: nat, yes: bool)
    requires BallotsOk(net, s) && r < net.n && r != net.o && Key(k, r) !in s.h.cast
    ensures BallotsOk(net, VoteBack(s, r, net.parent[r], k, yes))
  {
    var f := VoteBack(s, r, net.parent[r], k, yes);
    forall t: nat, j: nat | t < net.n && t != net.o
      ensures BallotAt(net, f, t, j)
    {
      assert BallotAt(net, s, t, j);
      if t == r {
        BallotsMore(Upward(net, s, t), Vote(k, yes), j);
      }
    }
  }

  lemma TakeBallots(net: Net, s: State, src: nat, dst: nat)
    requires BallotsOk(net, s) && Enabled(net, s, Recv(src, dst, true))
    ensures BallotsOk(net, Take(net, s, src, dst))
  {
    SameBallots(net, s, Take(net, s, src, dst));
  }

  lemma ProposalBallots(net: Net, s: State, u: State, t: nat, k: nat, yes: bool)
    requires BallotsOk(net, u) && t < net.n && t != net.o && Key(k, t) !in u.h.cast
    ensures BallotsOk(net, OnProposal(net, u, net.parent[t], t, k, yes))
  {
    var p := net.parent[t];
    assert TreeStep(net, t);
    var j := u.(h := u.h.(judged := u.h.judged[Key(k, t) := yes]));
    SameBallots(net, u, j);
    if !yes {
      VoteBackBallots(net, j, t, k, false);
    } else {
      var to := net.forward(t, p);
      var q := j.(pending := u.pending[t := u.pending[t] + [Entry(k, p, |to|, 0, true)]]);
      SameBallots(net, j, q);
      SpreadBallots(net, q, t, to, Proposal(k));
      if |to| == 0 {
        VoteBackBallots(net, Spread(q, t, to, Proposal(k)), t, k, true);
      }
    }
  }

  lemma InnerVoteBallots(net: Net, u: State, src: nat, p: nat, k: nat, yes: bool, judgement: bool)
    requires BallotsOk(net, u) && p < net.n && p != net.o
    requires u.pending[p] != [] ==>
      u.pending[p][0].voteTo == net.parent[p] && Key(u.pending[p][0].round, p) !in u.h.cast
    ensures BallotsOk(net, OnVote(net, u, src, p, k, yes, judgement))
  {
    var c := u.(h := u.h.(counted := u.h.counted + {Key(k, src)}));
    SameBallots(net, u, c);
    if u.pending[p] != [] {
      var first := u.pending[p][0];
      var e := first.(recved := first.recved + 1, vote := first.vote && yes);
      var m := c.(pending := u.pending[p := u.pending[p][0 := e]]);
      SameBallots(net, c, m);
      if e.recved == e.needed {
        VoteBackBallots(net, m, p, e.round, e.vote);
      }
    }
  }

  lemma StarterVoteBallots(net: Net, u: State, src: nat, k: nat, yes: bool, judgement: bool)
    requires BallotsOk(net, u)
    ensures BallotsOk(net, OnVote(net, u, src, net.o, k, yes, judgement))
  {
    var c := u.(h := u.h.(counted := u.h.counted + {Key(k, src)}));
    var own := u.own.(recved := u.own.recved + 1, vote := u.own.vote && yes);
    if own.recved != own.needed {
      SameBallots(net, u, c.(own := own));
    } else {
      var j, v := c.round, own.vote && judgement;
      var h := c.h.(self := if own.vote then c.h.self[j := judgement] else c.h.self,
                    decisions := c.h.decisions[j := v]);
      var d := c.(own := own.(vote := v, decided := true), h := h);
      SameBallots(net, u, d);
      SpreadBallots(net, d, net.o, net.initial, Decision(j, v));
    }
  }

  lemma DecisionBallots(net: Net, u: State, t: nat, k: nat, yes: bool)
    requires BallotsOk(net, u) && t < net.n && t != net.o
    ensures BallotsOk(net, OnDecision(net, u, net.parent[t], t, k, yes))
  {
    var p := net.parent[t];
    assert TreeStep(net, t);
    var found := if u.pending[t] == [] then None else Some(u.pending[t][0].round);
    var rest := if u.pending[t] == [] then [] else u.pending[t][1..];
    var d := u.(pending := u.pending[t := rest], h := u.h.(outcome := u.h.outcome[Key(k, t) := found]));
    SameBallots(net, u, d);
    SpreadBallots(net, d, t, net.forward(t, p), Decision(k, yes));
  }

  lemma RecvBallots(net: Net, s: State, src: nat, dst: nat, judgement: bool)
    requires Inv(net, s) && BallotsOk(net, s) && Enabled(net, s, Recv(src, dst, judgement))
    ensures BallotsOk(net, Apply(net, s, Recv(src, dst, judgement)))
  {
    HeadKind(net, s, src, dst);
    TakeBallots(net, s, src, dst);
    var u := Take(net, s, src, dst);
    match s.chan[(src, dst)].Head()
    case Proposal(k) =>
      ProposalFacts(net, s, dst, k);
      ProposalBallots(net, s, u, dst, k, judgement);
    case Decision(k, yes) => DecisionBallots(net, u, dst, k, yes);
    case Vote(k, yes) =>
      VoteFacts(net, s, src);
      if dst == net.o {
        StarterVoteBallots(net, u, src, k, yes, judgement);
      } else {
        InnerVoteBallots(net, u, src, dst, k, yes, judgement);
      }
  }

  lemma SubmitBallots(net: Net, s: State)
    requires BallotsOk(net, s)
    ensures BallotsOk(net, OnSubmit(net, s))
  {
    SameBallots(net, s, Begun(net, s));
    SpreadBallots(net, Begun(net, s), net.o, net.initial, Proposal(s.round + 1));
  }

  lemma InitBallots(net: Net)
    requires WellNet(net)
    ensures BallotsOk(net, Init(net))
  {
    forall t: nat, k: nat | t < net.n && t != net.o
      ensures BallotAt(net, Init(net), t, k)
    {
    }
  }

  /** In every run a rank sends its parent exactly one ballot for each round it votes in. */
  lemma {:induction false} RunBallots(net: Net, acts: seq<Action>)
    requires WellNet(net) && Run(net, acts).Some?
    ensures BallotsOk(net, Run(net, acts).value)
  {
    if acts == [] {
      InitBallots(net);
    } else {
      var before := acts[..|acts| - 1];
      RunBallots(net, before);
      RunInv(net, before);
      var s := Run(net, before).value;
      match acts[|acts| - 1]
      case Submit => SubmitBallots(net, s);
      case Recv(src, dst, judgement) => RecvBallots(net, s, src, dst, judgement);
    }
  }

  // ---------------------------------------------------------------- votes on the wire

  /** The channel still holds an untaken ballot of round `k`. */
  predicate Carries(c: Channel, k: nat) {
    exists i | c.taken <= i < |c.sent| :: IsBallot(c.sent[i], k)
  }

  /** Children of `t` whose ballot of round `k` is in the channel. */
  ghost function UnderWay(net: Net, s: State, k: nat, t: nat): set<nat>
    requires |net.parent| == net.n && Sized(net, s) && t < net.n
  {
    set c: nat | c < net.n && IsKid(net, t, c) && Carries(s.chan[(c, t)], k)
  }

  /** Children of `t` that have never sent a ballot of round `k`. */
  ghost function Unsent(net: Net, s: State, k: nat, t: nat): set<nat>
    requires |net.parent| == net.n && Sized(net, s) && t < net.n
  {
    set c: nat | c < net.n && IsKid(net, t, c) && Ballots(s.chan[(c, t)].sent, k) == 0
  }

  /** An upward channel carries the ballot of round `k` exactly while that ballot is recorded as
      cast and not as counted. */
  lemma WireIsRecord(net: Net, s: State, c: nat, k: nat)
    requires Inv(net, s) && c < net.n && c != net.o
    ensures Carries(s.chan[(c, net.parent[c])], k) <==> Key(k, c) in s.h.cast && Key(k, c) !in s.h.counted
  {
    var ch := s.chan[(c, net.parent[c])];
    TreeEdge(net, net.parent[c], c);
    assert WireAt(net, s, c, net.parent[c]);
    if Key(k, c) in s.h.cast && Key(k, c) !in s.h.counted {
      BallotMeansUndecided(net, s, k, c);
      assert IsBallot(ch.sent[ch.taken], k);
    }
  }

  lemma WireParts(net: Net, s: State, k: nat, t: nat)
    requires Inv(net, s) && BallotsOk(net, s) && t < net.n
    ensures var counted, flying := Votes(net, s.h.counted, k, t), UnderWay(net, s, k, t);
      var silent := Unsent(net, s, k, t);
      Kids(net, t) == counted + flying + silent && counted !! flying && (counted + flying) !! silent
  {
    var flying, silent := UnderWay(net, s, k, t), Unsent(net, s, k, t);
    forall c: nat | c < net.n && IsKid(net, t, c)
      ensures c in flying <==> Key(k, c) in s.h.cast && Key(k, c) !in s.h.counted
      ensures c in silent <==> Key(k, c) !in s.h.cast
      ensures Key(k, c) in s.h.counted ==> Key(k, c) in s.h.cast
    {
      WireIsRecord(net, s, c, k);
      assert BallotAt(net, s, c, k);
      assert CastAt(net, s.h, c, k);
    }
  }

  lemma ThreeParts(a: set<nat>, b: set<nat>, c: set<nat>)
    requires a !! b && (a + b) !! c
    ensures |a + b + c| == |a| + |b| + |c|
  {
  }

  /** Of the children of a rank, some have had their ballot counted, some have theirs in the channel,
      the rest have sent none. */
  lemma WireSplits(net: Net, s: State, k: nat, t: nat)
    requires Inv(net, s) && BallotsOk(net, s) && t < net.n
    ensures |Kids(net, t)| ==
      |Votes(net, s.h.counted, k, t)| + |UnderWay(net, s, k, t)| + |Unsent(net, s, k, t)|
  {
    WireParts(net, s, k, t);
    ThreeParts(Votes(net, s.h.counted, k, t), UnderWay(net, s, k, t), Unsent(net, s, k, t));
  }

  // ---------------------------------------------------------------- decisions on the wire

  /** How many decisions of round `k` are among these messages. */
  function Decisions(ms: seq<Msg>, k: nat): nat {
    if ms == [] then 0
    else
      Decisions(ms[..|ms| - 1], k)
        + if ms[|ms| - 1].Decision? && ms[|ms| - 1].round == k then 1 else 0
  }

  /** An ordered log holds one decision of each round it has closed. */
  lemma {:induction false} OneEach(log: seq<Msg>, k: nat)
    requires Ordered(log)
    ensures Decisions(log, k) == if 1 <= k <= CountD(log) then 1 else 0
    decreases |log|
  {
    if log != [] {
      var last := |log| - 1;
      OrderedPrefix(log, last);
      OneEach(log[..last], k);
      assert OrderedAt(log, last);
    }
  }
}
