/** Every step of the voting protocol keeps the invariant. */
module VotingSteps {
  import opened Common
  import opened VotingNet
  import opened VotingInv

  // ---------------------------------------------------------------- channels

  lemma TreeEdge(net: Net, a: nat, b: nat)
    requires WellNet(net) && a < net.n && b < net.n && IsKid(net, a, b)
    ensures !IsKid(net, b, a) && a != b
  {
    assert TreeStep(net, b);
    assert a != net.o ==> TreeStep(net, a);
  }

  lemma SpreadWires(net: Net, s: State, r: nat, to: set<nat>, m: Msg)
    requires Wires(net, s) && r < net.n && to == Kids(net, r)
    ensures Wires(net, Spread(s, r, to, m))
  {
    var t := Spread(s, r, to, m);
    forall a: nat, b: nat | a < net.n && b < net.n
      ensures WireAt(net, t, a, b)
    {
      assert WireAt(net, s, a, b);
    }
  }

  lemma VoteBackWires(net: Net, s: State, r: nat, yes: bool)
    requires Wires(net, s) && r < net.n && r != net.o
    requires Key(s.round, r) !in s.h.cast && Key(s.round, r) !in s.h.counted
    ensures Wires(net, VoteBack(s, r, net.parent[r], s.round, yes))
  {
    var t := VoteBack(s, r, net.parent[r], s.round, yes);
    TreeEdge(net, net.parent[r], r);
    forall a: nat, b: nat | a < net.n && b < net.n
      ensures WireAt(net, t, a, b)
    {
      assert WireAt(net, s, a, b);
    }
  }

  /** Taking the head of a down channel. */
  lemma TakeDownWires(net: Net, s: State, t: nat)
    requires Wires(net, s) && t < net.n && t != net.o
    requires s.chan[(net.parent[t], t)].Waiting()
    ensures Wires(net, Take(net, s, net.parent[t], t))
  {
    var u := Take(net, s, net.parent[t], t);
    TreeEdge(net, net.parent[t], t);
    assert WireAt(net, s, net.parent[t], t);
    forall a: nat, b: nat | a < net.n && b < net.n
      ensures WireAt(net, u, a, b)
    {
      assert WireAt(net, s, a, b);
    }
  }

  /** Taking the only ballot of an up channel and counting it. */
  lemma TakeUpWires(net: Net, s: State, t: nat)
    requires Wires(net, s) && t < net.n && t != net.o
    requires s.chan[(t, net.parent[t])].Waiting()
    ensures var u := Take(net, s, t, net.parent[t]);
      Wires(net, u.(h := u.h.(counted := u.h.counted + {Key(s.round, t)})))
  {
    var u := Take(net, s, t, net.parent[t]);
    var v := u.(h := u.h.(counted := u.h.counted + {Key(s.round, t)}));
    TreeEdge(net, net.parent[t], t);
    forall a: nat, b: nat | a < net.n && b < net.n
      ensures WireAt(net, v, a, b)
    {
      assert WireAt(net, s, a, b);
    }
  }

  /** Fields that the channels do not depend on. */
  lemma SameWires(net: Net, s: State, t: State)
    requires Wires(net, s) && Sized(net, t)
    requires t.chan == s.chan && t.h.out == s.h.out
    requires t.round == s.round && t.h.cast == s.h.cast && t.h.counted == s.h.counted
    ensures Wires(net, t)
  {
    forall a: nat, b: nat | a < net.n && b < net.n
      ensures WireAt(net, t, a, b)
    {
      assert WireAt(net, s, a, b);
    }
  }

  /** The round may change while no ballot of either round is on its way. */
  lemma NextRoundWires(net: Net, s: State)
    requires Wires(net, s)
    requires forall r: nat | r < net.n && r != net.o :: !BallotOut(s, r) && !BallotOut(Begun(net, s), r)
    ensures Wires(net, Begun(net, s))
  {
    forall a: nat, b: nat | a < net.n && b < net.n
      ensures WireAt(net, Begun(net, s), a, b)
    {
      assert WireAt(net, s, a, b);
    }
  }

  // ---------------------------------------------------------------- logs

  /** Rank `c` neither sent, took nor judged anything between `s` and `t`. */
  ghost predicate Untouched(net: Net, s: State, t: State, c: nat)
    requires Base(net, s) && Base(net, t) && c < net.n
  {
    && t.h.out[c] == s.h.out[c] && Got(net, t, c) == Got(net, s, c)
    && s.h.out[net.parent[c]] <= t.h.out[net.parent[c]]
    && forall k: nat :: SameJudgement(s, t, Key(k, c))
  }

  predicate SameJudgement(s: State, t: State, q: Key) {
    (q in t.h.judged <==> q in s.h.judged) && (q in s.h.judged ==> t.h.judged[q] == s.h.judged[q])
  }

  lemma UntouchedLog(net: Net, s: State, t: State, c: nat)
    requires Base(net, s) && Base(net, t) && c < net.n && c != net.o && Untouched(net, s, t, c)
    requires LogAt(net, s, c)
    ensures LogAt(net, t, c)
  {
    assert Taken(net, t, c) == Taken(net, s, c);
    assert SameJudgement(s, t, Key(Open(Taken(net, s, c)), c));
  }

  lemma UntouchedJudged(net: Net, s: State, t: State, c: nat, k: nat)
    requires Base(net, s) && Base(net, t) && c < net.n && c != net.o && Untouched(net, s, t, c)
    requires JudgedAt(net, s, c, k)
    ensures JudgedAt(net, t, c, k)
  {
    assert Taken(net, t, c) == Taken(net, s, c);
    assert SameJudgement(s, t, Key(k, c));
  }

  // ---------------------------------------------------------------- submit

  /** A ballot under way means the starter is still waiting. */
  lemma BallotMeansUndecided(net: Net, s: State, k: nat, r: nat)
    requires Rest(net, s) && r < net.n && r != net.o && Key(k, r) in s.h.cast && Key(k, r) !in s.h.counted
    ensures k == s.round && !s.own.decided
  {
    assert CastAt(net, s.h, r, k);
    assert JudgedAt(net, s, r, k);
    assert CurrentAt(net, s, r, k);
  }

  lemma NoBallotBetweenRounds(net: Net, s: State, r: nat)
    requires Rest(net, s) && s.own.decided && r < net.n && r != net.o
    ensures !BallotOut(s, r) && !BallotOut(Begun(net, s), r)
  {
    NothingAhead(net, s, s.round + 1, r);
    if BallotOut(s, r) {
      BallotMeansUndecided(net, s, s.round, r);
    }
  }

  lemma SubmitWires(net: Net, s: State)
    requires Inv(net, s) && s.own.decided
    ensures Wires(net, OnSubmit(net, s))
  {
    forall r: nat | r < net.n && r != net.o
      ensures !BallotOut(s, r) && !BallotOut(Begun(net, s), r)
    {
      NoBallotBetweenRounds(net, s, r);
    }
    NextRoundWires(net, s);
    SpreadWires(net, Begun(net, s), net.o, net.initial, Proposal(s.round + 1));
  }

  lemma SubmitBase(net: Net, s: State)
    requires Base(net, s)
    ensures Base(net, OnSubmit(net, s))
    ensures forall c: nat | c < net.n && c != net.o :: Untouched(net, s, OnSubmit(net, s), c)
    ensures OnSubmit(net, s).h.out[net.o] == s.h.out[net.o] + [Proposal(s.round + 1)]
  {
  }

  lemma SubmitLogs(net: Net, s: State)
    requires Rest(net, s) && s.own.decided
    ensures Base(net, OnSubmit(net, s)) && LogsOk(net, OnSubmit(net, s))
  {
    var t := OnSubmit(net, s);
    SubmitBase(net, s);
    OrderedExtend(s.h.out[net.o], Proposal(s.round + 1));
    forall c: nat | c < net.n && c != net.o
      ensures LogAt(net, t, c)
    {
      assert LogAt(net, s, c);
      UntouchedLog(net, s, t, c);
    }
  }

  lemma SubmitJudged(net: Net, s: State)
    requires Rest(net, s) && s.own.decided
    ensures Base(net, OnSubmit(net, s)) && JudgedOk(net, OnSubmit(net, s))
  {
    var t := OnSubmit(net, s);
    SubmitBase(net, s);
    forall c: nat, k: nat | c < net.n && c != net.o
      ensures JudgedAt(net, t, c, k)
    {
      assert JudgedAt(net, s, c, k);
      UntouchedJudged(net, s, t, c, k);
    }
  }

  lemma SubmitScript(net: Net, s: State)
    requires Rest(net, s) && s.own.decided && Base(net, OnSubmit(net, s))
    ensures ScriptOk(net, OnSubmit(net, s))
  {
    var t := OnSubmit(net, s);
    OrderedExtend(s.h.out[net.o], Proposal(t.round));
    forall r: nat, k: nat | r < net.n
      ensures DecisionsKnown(t, r, k)
    {
      assert DecisionsKnown(s, r, k);
    }
  }

  lemma SubmitTallies(net: Net, s: State)
    requires Rest(net, s) && s.own.decided && Base(net, OnSubmit(net, s))
    ensures var t := OnSubmit(net, s);
      PendingOk(net, t) && CastOk(net, t) && CurrentOk(net, t) && OutcomeOk(net, t)
  {
    var t := OnSubmit(net, s);
    forall c: nat, k: nat | c < net.n && c != net.o
      ensures CastAt(net, t.h, c, k) && CurrentAt(net, t, c, k) && OutcomeAt(net, t, c, k)
    {
      assert CastAt(net, s.h, c, k) && CurrentAt(net, s, c, k) && OutcomeAt(net, s, c, k);
    }
  }

  lemma SubmitOwn(net: Net, s: State)
    requires Rest(net, s) && s.own.decided && Base(net, OnSubmit(net, s))
    ensures OwnOk(net, OnSubmit(net, s))
  {
    var t := OnSubmit(net, s);
    RootHasKid(net, if net.o == 0 then 1 else 0);
    forall c: nat | c < net.n && c != net.o
      ensures Key(t.round, c) !in s.h.counted
    {
      NothingAhead(net, s, t.round, c);
    }
    assert Votes(net, t.h.counted, t.round, net.o) == {};
    forall k: nat
      ensures DecidedAt(net, t.h, k)
    {
      assert DecidedAt(net, s.h, k);
    }
  }

  lemma SubmitInv(net: Net, s: State)
    requires Inv(net, s) && s.own.decided
    ensures Inv(net, OnSubmit(net, s))
  {
    SubmitWires(net, s);
    SubmitLogs(net, s);
    SubmitJudged(net, s);
    SubmitScript(net, s);
    SubmitTallies(net, s);
    SubmitOwn(net, s);
  }

  // ---------------------------------------------------------------- a proposal arrives

  lemma AllYesSame(net: Net, h: History, g: History, k: nat, r: nat)
    requires |net.parent| == net.n && h.counted == g.counted
    requires forall q: Key | q in h.counted ::
      (q in h.cast <==> q in g.cast) && (q in h.cast ==> h.cast[q] == g.cast[q])
    ensures AllYes(net, h, k, r) == AllYes(net, g, k, r)
  {
  }

  lemma ProposalFacts(net: Net, s: State, t: nat, k: nat)
    requires Rest(net, s) && t < net.n && t != net.o
    requires Got(net, s, t) < |s.h.out[net.parent[t]]| && s.h.out[net.parent[t]][Got(net, s, t)] == Proposal(k)
    ensures k == CountD(s.h.out[t]) + 1 && Open(s.h.out[t]) == 0
    ensures Key(k, t) !in s.h.judged && Key(k, t) !in s.h.cast && Key(k, t) !in s.h.counted
    ensures k == s.round && !s.own.decided && Votes(net, s.h.counted, k, t) == {}
  {
    var p := net.parent[t];
    var g := Got(net, s, t);
    var log := s.h.out[p];
    assert p != net.o ==> LogAt(net, s, p);
    assert LogAt(net, s, t);
    assert OrderedAt(log, g);
    NextProposalIsFresh(log, g);
    assert JudgedAt(net, s, t, k);
    assert CastAt(net, s.h, t, k);
    assert CurrentAt(net, s, t, k);
    forall c: nat | c < net.n && IsKid(net, t, c)
      ensures Key(k, c) !in s.h.counted
    {
      assert CastAt(net, s.h, c, k);
      assert JudgedAt(net, s, c, k);
    }
  }

  /** `f` is `s` after rank `t` judged the proposal of round `k`. */
  ghost predicate Judged(net: Net, s: State, f: State, t: nat, k: nat, yes: bool)
    requires WellNet(net) && Sized(net, s) && Sized(net, f) && t < net.n
  {
    && f.round == s.round && f.own == s.own
    && f.h.judged == s.h.judged[Key(k, t) := yes]
    && f.h.counted == s.h.counted && f.h.self == s.h.self
    && f.h.decisions == s.h.decisions && f.h.outcome == s.h.outcome
    && f.h.out == (if yes then s.h.out[t := s.h.out[t] + [Proposal(k)]] else s.h.out)
    && f.pending == (if yes then s.pending[t := s.pending[t] + [Entry(k, net.parent[t], |Kids(net, t)|, 0, true)]]
                     else s.pending)
    && f.h.cast == (if !yes then s.h.cast[Key(k, t) := false]
                    else if Kids(net, t) == {} then s.h.cast[Key(k, t) := true]
                    else s.h.cast)
    && (forall c: nat | c < net.n && c != net.o :: Got(net, f, c) == Got(net, s, c) + if c == t then 1 else 0)
  }

  /** The next message for `t` is the proposal of round `k`. */
  ghost predicate Incoming(net: Net, s: State, t: nat, m: Msg)
    requires WellNet(net) && Sized(net, s)
  {
    && t < net.n && t != net.o
    && Got(net, s, t) < |s.h.out[net.parent[t]]| && s.h.out[net.parent[t]][Got(net, s, t)] == m
  }

  lemma JudgedBase(net: Net, s: State, f: State, t: nat, k: nat, yes: bool)
    requires Base(net, s) && Sized(net, f) && Incoming(net, s, t, Proposal(k)) && Judged(net, s, f, t, k, yes)
    ensures Base(net, f)
    ensures Taken(net, f, t) == Taken(net, s, t) + [Proposal(k)]
    ensures forall c: nat | c < net.n && c != net.o && c != t :: Untouched(net, s, f, c)
  {
    assert TreeStep(net, t);
  }

  lemma JudgedLogs(net: Net, s: State, f: State, t: nat, k: nat, yes: bool)
    requires Rest(net, s) && Sized(net, f) && Incoming(net, s, t, Proposal(k)) && Judged(net, s, f, t, k, yes)
    ensures Base(net, f) && LogsOk(net, f)
  {
    ProposalFacts(net, s, t, k);
    JudgedBase(net, s, f, t, k, yes);
    assert LogAt(net, s, t);
    forall c: nat | c < net.n && c != net.o
      ensures LogAt(net, f, c)
    {
      if c != t {
        assert LogAt(net, s, c);
        UntouchedLog(net, s, f, c);
      } else {
        assert Taken(net, f, t)[..|Taken(net, s, t)|] == Taken(net, s, t);
        if yes {
          OrderedExtend(s.h.out[t], Proposal(k));
        }
      }
    }
  }

  lemma JudgedJudged(net: Net, s: State, f: State, t: nat, k: nat, yes: bool)
    requires Rest(net, s) && Sized(net, f) && Incoming(net, s, t, Proposal(k)) && Judged(net, s, f, t, k, yes)
    ensures Base(net, f) && JudgedOk(net, f)
  {
    ProposalFacts(net, s, t, k);
    JudgedBase(net, s, f, t, k, yes);
    forall c: nat, j: nat | c < net.n && c != net.o
      ensures JudgedAt(net, f, c, j)
    {
      assert JudgedAt(net, s, c, j);
      if c != t {
        UntouchedJudged(net, s, f, c, j);
      }
    }
  }

  lemma JudgedScript(net: Net, s: State, f: State, t: nat, k: nat, yes: bool)
    requires Base(net, s) && ScriptOk(net, s) && Base(net, f)
    requires t < net.n && t != net.o && Judged(net, s, f, t, k, yes)
    ensures ScriptOk(net, f)
  {
    forall r: nat, j: nat | r < net.n
      ensures DecisionsKnown(f, r, j)
    {
      assert DecisionsKnown(s, r, j);
    }
  }

  lemma JudgedPending(net: Net, s: State, f: State, t: nat, k: nat, yes: bool)
    requires Rest(net, s) && Base(net, f) && Incoming(net, s, t, Proposal(k)) && Judged(net, s, f, t, k, yes)
    ensures PendingOk(net, f)
  {
    ProposalFacts(net, s, t, k);
    forall c: nat | c < net.n && c != net.o
      ensures f.pending[c] == Expected(net, f, c)
    {
      AllYesSame(net, s.h, f.h, Open(s.h.out[c]), c);
      if c == t && yes {
        OrderedExtend(s.h.out[t], Proposal(k)) by {
          assert LogAt(net, s, t);
        }
      }
    }
  }

  lemma JudgedTallies(net: Net, s: State, f: State, t: nat, k: nat, yes: bool)
    requires Rest(net, s) && Base(net, f) && Incoming(net, s, t, Proposal(k)) && Judged(net, s, f, t, k, yes)
    ensures CastOk(net, f) && CurrentOk(net, f) && OwnOk(net, f) && OutcomeOk(net, f)
  {
    ProposalFacts(net, s, t, k);
    forall c: nat, j: nat | c < net.n && c != net.o
      ensures CastAt(net, f.h, c, j)
    {
      assert CastAt(net, s.h, c, j);
      AllYesSame(net, s.h, f.h, j, c);
    }
    forall c: nat, j: nat | c < net.n && c != net.o
      ensures CurrentAt(net, f, c, j)
    {
      assert CurrentAt(net, s, c, j);
    }
    forall c: nat, j: nat | c < net.n && c != net.o
      ensures OutcomeAt(net, f, c, j)
    {
      assert OutcomeAt(net, s, c, j);
      if c == t && yes {
        OrderedExtend(s.h.out[t], Proposal(k)) by {
          assert LogAt(net, s, t);
        }
      }
    }
    AllYesSame(net, s.h, f.h, s.round, net.o);
    forall j: nat
      ensures DecidedAt(net, f.h, j)
    {
      assert DecidedAt(net, s.h, j);
      AllYesSame(net, s.h, f.h, j, net.o);
    }
  }

  lemma JudgedRest(net: Net, s: State, f: State, t: nat, k: nat, yes: bool)
    requires Rest(net, s) && Sized(net, f) && Incoming(net, s, t, Proposal(k)) && Judged(net, s, f, t, k, yes)
    ensures Rest(net, f)
  {
    JudgedBase(net, s, f, t, k, yes);
    JudgedLogs(net, s, f, t, k, yes);
    JudgedJudged(net, s, f, t, k, yes);
    JudgedScript(net, s, f, t, k, yes);
    JudgedPending(net, s, f, t, k, yes);
    JudgedTallies(net, s, f, t, k, yes);
  }

  lemma ProposalWires(net: Net, s: State, t: nat, k: nat, yes: bool)
    requires Inv(net, s) && t < net.n && t != net.o && s.chan[(net.parent[t], t)].Waiting()
    requires Incoming(net, s, t, Proposal(k))
    ensures Wires(net, OnProposal(net, Take(net, s, net.parent[t], t), net.parent[t], t, k, yes))
  {
    var p := net.parent[t];
    assert TreeStep(net, t);
    ProposalFacts(net, s, t, k);
    TakeDownWires(net, s, t);
    var u := Take(net, s, p, t);
    var j := u.(h := u.h.(judged := u.h.judged[Key(k, t) := yes]));
    if !yes {
      SameWires(net, u, j);
      VoteBackWires(net, j, t, false);
    } else {
      var to := net.forward(t, p);
      var q := j.(pending := u.pending[t := u.pending[t] + [Entry(k, p, |to|, 0, true)]]);
      SameWires(net, u, q);
      SpreadWires(net, q, t, to, Proposal(k));
      if |to| == 0 {
        VoteBackWires(net, Spread(q, t, to, Proposal(k)), t, true);
      }
    }
  }

  lemma ProposalIsJudged(net: Net, s: State, t: nat, k: nat, yes: bool)
    requires Base(net, s) && t < net.n && t != net.o && s.chan[(net.parent[t], t)].Waiting()
    ensures var f := OnProposal(net, Take(net, s, net.parent[t], t), net.parent[t], t, k, yes);
      Sized(net, f) && Judged(net, s, f, t, k, yes)
  {
    assert TreeStep(net, t);
    if yes {
      ApprovalIsJudged(net, s, t, k);
    }
  }

  lemma ApprovalIsJudged(net: Net, s: State, t: nat, k: nat)
    requires Base(net, s) && t < net.n && t != net.o && s.chan[(net.parent[t], t)].Waiting()
    ensures var f := OnProposal(net, Take(net, s, net.parent[t], t), net.parent[t], t, k, true);
      Sized(net, f) && Judged(net, s, f, t, k, true)
  {
    assert TreeStep(net, t);
    forall c: nat | c < net.n && c != net.o
      ensures var f := OnProposal(net, Take(net, s, net.parent[t], t), net.parent[t], t, k, true);
        Sized(net, f) && Got(net, f, c) == Got(net, s, c) + if c == t then 1 else 0
    {
      ApprovalTakes(net, s, t, k, c);
    }
  }

  lemma ApprovalTakes(net: Net, s: State, t: nat, k: nat, c: nat)
    requires Base(net, s) && t < net.n && t != net.o && s.chan[(net.parent[t], t)].Waiting()
    requires c < net.n && c != net.o
    ensures var f := OnProposal(net, Take(net, s, net.parent[t], t), net.parent[t], t, k, true);
      Sized(net, f) && Got(net, f, c) == Got(net, s, c) + if c == t then 1 else 0
  {
  }

  lemma ProposalInv(net: Net, s: State, t: nat, k: nat, yes: bool)
    requires Inv(net, s) && t < net.n && t != net.o && s.chan[(net.parent[t], t)].Waiting()
    requires Incoming(net, s, t, Proposal(k))
    ensures Inv(net, OnProposal(net, Take(net, s, net.parent[t], t), net.parent[t], t, k, yes))
  {
    ProposalWires(net, s, t, k, yes);
    ProposalIsJudged(net, s, t, k, yes);
    JudgedRest(net, s, OnProposal(net, Take(net, s, net.parent[t], t), net.parent[t], t, k, yes), t, k, yes);
  }

  // ---------------------------------------------------------------- a vote arrives

  /** `f` is `s` after the current ballot of `t` was counted at its parent. */
  ghost predicate Counted(net: Net, s: State, f: State, t: nat)
    requires WellNet(net) && Sized(net, s) && Sized(net, f) && t < net.n
  {
    && f.round == s.round && f.h.judged == s.h.judged && f.h.outcome == s.h.outcome
    && f.h.counted == s.h.counted + {Key(s.round, t)}
    && (forall c: nat | c < net.n && c != net.o :: Got(net, f, c) == Got(net, s, c))
  }

  lemma VoteFacts(net: Net, s: State, t: nat)
    requires Rest(net, s) && t < net.n && t != net.o && BallotOut(s, t)
    ensures !s.own.decided && t !in Votes(net, s.h.counted, s.round, net.parent[t])
    ensures var p := net.parent[t];
      p != net.o ==>
        && Open(s.h.out[p]) == s.round != 0 && |s.pending[p]| == 1 && s.pending[p] == Expected(net, s, p)
        && True(s.h.judged, s.round, p)
        && Key(s.round, p) !in s.h.cast && Key(s.round, p) !in s.h.counted
  {
    var p := net.parent[t];
    var k := s.round;
    assert TreeStep(net, t);
    BallotMeansUndecided(net, s, k, t);
    assert CastAt(net, s.h, t, k);
    assert JudgedAt(net, s, t, k);
    RoundBound(net, s, p, k);
    if p != net.o {
      assert LogAt(net, s, p);
      assert JudgedAt(net, s, p, k);
      CountBound(net, s, p);
      OpenIs(s.h.out[p], k);
      assert CastAt(net, s.h, p, k);
      assert t in Kids(net, p);
    }
  }

  /** No rank has taken more decisions than the starter has made. */
  lemma {:induction false} CountBound(net: Net, s: State, r: nat)
    requires Base(net, s) && LogsOk(net, s) && r < net.n
    ensures CountD(s.h.out[r]) <= CountD(s.h.out[net.o])
    decreases net.depth[r]
  {
    if r != net.o {
      assert TreeStep(net, r);
      assert LogAt(net, s, r);
      CountDMonotone(s.h.out[net.parent[r]], Got(net, s, r));
      CountBound(net, s, net.parent[r]);
    }
  }

  /** The counted votes were cast, and cast alike in `h` and `g`. */
  ghost predicate SameCast(net: Net, h: History, g: History, counted: set<Key>) {
    forall q: Key | q in counted && q.rank < net.n && q.rank != net.o ::
      q in h.cast && q in g.cast && h.cast[q] == g.cast[q]
  }

  /** One more child is counted, and the conjunction grows by its vote. */
  lemma OneMoreVote(net: Net, h: History, g: History, k: nat, t: nat)
    requires |net.parent| == net.n && t < net.n && t != net.o && Key(k, t) !in h.counted
    requires g.counted == h.counted + {Key(k, t)} && Key(k, t) in h.cast
    requires SameCast(net, h, g, g.counted)
    ensures var p := net.parent[t];
      && Votes(net, g.counted, k, p) == Votes(net, h.counted, k, p) + {t}
      && |Votes(net, g.counted, k, p)| == |Votes(net, h.counted, k, p)| + 1
      && Votes(net, g.counted, k, p) <= Kids(net, p)
      && (AllYes(net, g, k, p) <==> AllYes(net, h, k, p) && h.cast[Key(k, t)])
  {
    var p := net.parent[t];
    assert Votes(net, g.counted, k, p) == Votes(net, h.counted, k, p) + {t};
    if AllYes(net, g, k, p) {
      assert True(g.cast, k, t);
      forall c | c in Votes(net, h.counted, k, p)
        ensures True(h.cast, k, c)
      {
        assert True(g.cast, k, c);
      }
    }
  }

  /** Tallies of other ranks and rounds are untouched. */
  lemma OtherVotes(net: Net, h: History, g: History, k: nat, t: nat, j: nat, r: nat)
    requires |net.parent| == net.n && t < net.n && t != net.o && (j != k || r != net.parent[t])
    requires g.counted == h.counted + {Key(k, t)}
    requires SameCast(net, h, g, h.counted)
    ensures Votes(net, g.counted, j, r) == Votes(net, h.counted, j, r)
    ensures AllYes(net, g, j, r) == AllYes(net, h, j, r)
  {
    assert Votes(net, g.counted, j, r) == Votes(net, h.counted, j, r);
    forall c | c in Votes(net, h.counted, j, r)
      ensures True(g.cast, j, c) == True(h.cast, j, c)
    {
    }
  }

  /** What every counting step does to the parts it does not touch. */
  lemma CountedCommon(net: Net, s: State, f: State, t: nat)
    requires Rest(net, s) && Base(net, f) && t < net.n && t != net.o && Counted(net, s, f, t)
    requires s.h.out[net.o] <= f.h.out[net.o]
    requires forall r: nat | r < net.n && r != net.o :: f.h.out[r] == s.h.out[r]
    ensures JudgedOk(net, f) && OutcomeOk(net, f)
    ensures forall c: nat | c < net.n && c != net.o :: LogAt(net, f, c)
  {
    forall c: nat | c < net.n && c != net.o
      ensures Untouched(net, s, f, c) && LogAt(net, f, c)
    {
      assert LogAt(net, s, c);
      UntouchedLog(net, s, f, c);
    }
    forall c: nat, k: nat | c < net.n && c != net.o
      ensures JudgedAt(net, f, c, k)
    {
      assert JudgedAt(net, s, c, k);
      UntouchedJudged(net, s, f, c, k);
    }
    forall c: nat, k: nat | c < net.n && c != net.o
      ensures OutcomeAt(net, f, c, k)
    {
      assert OutcomeAt(net, s, c, k);
    }
  }

  // -------- at an inner rank

  /** The parent `p` merges the vote into its entry and casts when that was the last one. */
  ghost predicate Merged(net: Net, s: State, f: State, t: nat)
    requires WellNet(net) && Sized(net, s) && Sized(net, f) && t < net.n
  {
    var p := net.parent[t];
    var k := s.round;
    && Counted(net, s, f, t)
    && f.own == s.own && f.h.out == s.h.out && f.h.self == s.h.self && f.h.decisions == s.h.decisions
    && |s.pending[p]| == 1 && Key(k, t) in s.h.cast
    && (var e := s.pending[p][0];
        var v := e.vote && s.h.cast[Key(k, t)];
        && f.pending == s.pending[p := [e.(recved := e.recved + 1, vote := v)]]
        && f.h.cast == if e.recved + 1 == e.needed then s.h.cast[Key(k, p) := v] else s.h.cast)
  }

  lemma MergedPending(net: Net, s: State, f: State, t: nat)
    requires Rest(net, s) && Base(net, f) && t < net.n && t != net.o && net.parent[t] != net.o
    requires BallotOut(s, t) && Merged(net, s, f, t)
    ensures PendingOk(net, f)
  {
    VoteFacts(net, s, t);
    CastCounted(net, s);
    var p := net.parent[t];
    OneMoreVote(net, s.h, f.h, s.round, t);
    forall c: nat | c < net.n && c != net.o && c != p
      ensures f.pending[c] == Expected(net, f, c)
    {
      MergedElsewhere(net, s, f, t, c);
    }
  }

  lemma MergedElsewhere(net: Net, s: State, f: State, t: nat, c: nat)
    requires Rest(net, s) && Base(net, f) && t < net.n && t != net.o && net.parent[t] != net.o
    requires BallotOut(s, t) && Merged(net, s, f, t)
    requires c < net.n && c != net.o && c != net.parent[t]
    ensures f.pending[c] == Expected(net, f, c)
  {
    VoteFacts(net, s, t);
    CastCounted(net, s);
    OtherVotes(net, s.h, f.h, s.round, t, Open(s.h.out[c]), c);
  }

  /** Everything counted has been cast. */
  lemma CastCounted(net: Net, s: State)
    requires Base(net, s) && CastOk(net, s)
    ensures forall q: Key | q in s.h.counted && q.rank < net.n && q.rank != net.o :: q in s.h.cast
  {
    forall q: Key | q in s.h.counted && q.rank < net.n && q.rank != net.o
      ensures q in s.h.cast
    {
      assert CastAt(net, s.h, q.rank, q.round);
    }
  }

  lemma MergedCast(net: Net, s: State, f: State, t: nat)
    requires Rest(net, s) && Base(net, f) && t < net.n && t != net.o && net.parent[t] != net.o
    requires BallotOut(s, t) && Merged(net, s, f, t)
    ensures CastOk(net, f)
  {
    VoteFacts(net, s, t);
    CastCounted(net, s);
    var p := net.parent[t];
    var k := s.round;
    OneMoreVote(net, s.h, f.h, k, t);
    SubsetCount(Votes(net, f.h.counted, k, p), Kids(net, p));
    forall c: nat, j: nat | c < net.n && c != net.o
      ensures CastAt(net, f.h, c, j)
    {
      assert CastAt(net, s.h, c, j);
      if c != p || j != k {
        OtherVotes(net, s.h, f.h, k, t, j, c);
      }
    }
  }

  lemma MergedOwn(net: Net, s: State, f: State, t: nat)
    requires Rest(net, s) && Base(net, f) && t < net.n && t != net.o && net.parent[t] != net.o
    requires BallotOut(s, t) && Merged(net, s, f, t)
    ensures OwnOk(net, f) && CurrentOk(net, f) && ScriptOk(net, f)
  {
    VoteFacts(net, s, t);
    CastCounted(net, s);
    var k := s.round;
    OtherVotes(net, s.h, f.h, k, t, k, net.o);
    forall j: nat
      ensures DecidedAt(net, f.h, j)
    {
      assert DecidedAt(net, s.h, j);
      OtherVotes(net, s.h, f.h, k, t, j, net.o);
    }
    forall c: nat, j: nat | c < net.n && c != net.o
      ensures CurrentAt(net, f, c, j)
    {
      assert CurrentAt(net, s, c, j);
    }
    forall r: nat, j: nat | r < net.n
      ensures DecisionsKnown(f, r, j)
    {
      assert DecisionsKnown(s, r, j);
    }
  }

  lemma MergedRest(net: Net, s: State, f: State, t: nat)
    requires Rest(net, s) && Base(net, f) && t < net.n && t != net.o && net.parent[t] != net.o
    requires BallotOut(s, t) && Merged(net, s, f, t)
    ensures Rest(net, f)
  {
    CountedCommon(net, s, f, t);
    MergedPending(net, s, f, t);
    MergedCast(net, s, f, t);
    MergedOwn(net, s, f, t);
  }

  // -------- at the starter

  /** The starter counts a vote; `last` says whether it was the last one it needs, in which
      case the decision goes out. */
  ghost predicate Tallied(net: Net, s: State, f: State, t: nat, judgement: bool)
    requires WellNet(net) && Sized(net, s) && Sized(net, f) && t < net.n
  {
    var k := s.round;
    && Counted(net, s, f, t)
    && f.h.cast == s.h.cast && f.pending == s.pending
    && Key(k, t) in s.h.cast
    && var v := s.own.vote && s.h.cast[Key(k, t)];
       if s.own.recved + 1 != s.own.needed then
         && f.own == Own(s.own.needed, s.own.recved + 1, v, s.own.decided)
         && f.h.out == s.h.out && f.h.self == s.h.self && f.h.decisions == s.h.decisions
       else
         && f.own == Own(s.own.needed, s.own.recved + 1, v && judgement, true)
         && f.h.out == s.h.out[net.o := s.h.out[net.o] + [Decision(k, v && judgement)]]
         && f.h.self == (if v then s.h.self[k := judgement] else s.h.self)
         && f.h.decisions == s.h.decisions[k := v && judgement]
  }

  ghost predicate Last(s: State) {
    s.own.recved + 1 == s.own.needed
  }

  lemma TalliedVotes(net: Net, s: State, f: State, t: nat, judgement: bool)
    requires Rest(net, s) && Base(net, f) && t < net.n && t != net.o && net.parent[t] == net.o
    requires BallotOut(s, t) && Tallied(net, s, f, t, judgement)
    ensures var k := s.round;
      && |Votes(net, f.h.counted, k, net.o)| == s.own.recved + 1
      && (Votes(net, f.h.counted, k, net.o) == Kids(net, net.o) <==> Last(s))
      && (AllYes(net, f.h, k, net.o) <==> s.own.vote && s.h.cast[Key(k, t)])
      && CountD(s.h.out[net.o]) == k - 1 && k !in s.h.decisions && k > 0
  {
    VoteFacts(net, s, t);
    CastCounted(net, s);
    var k := s.round;
    OneMoreVote(net, s.h, f.h, k, t);
    SubsetCount(Votes(net, f.h.counted, k, net.o), Kids(net, net.o));
  }

  lemma TalliedTallies(net: Net, s: State, f: State, t: nat, judgement: bool)
    requires Rest(net, s) && Base(net, f) && t < net.n && t != net.o && net.parent[t] == net.o
    requires BallotOut(s, t) && Tallied(net, s, f, t, judgement)
    ensures PendingOk(net, f) && CastOk(net, f)
  {
    CastCounted(net, s);
    forall c: nat | c < net.n && c != net.o
      ensures f.pending[c] == Expected(net, f, c)
    {
      OtherVotes(net, s.h, f.h, s.round, t, Open(s.h.out[c]), c);
    }
    forall c: nat, j: nat | c < net.n && c != net.o
      ensures CastAt(net, f.h, c, j)
    {
      assert CastAt(net, s.h, c, j);
      OtherVotes(net, s.h, f.h, s.round, t, j, c);
    }
  }

  lemma TalliedOwn(net: Net, s: State, f: State, t: nat, judgement: bool)
    requires Rest(net, s) && Base(net, f) && t < net.n && t != net.o && net.parent[t] == net.o
    requires BallotOut(s, t) && Tallied(net, s, f, t, judgement)
    ensures OwnOk(net, f)
  {
    VoteFacts(net, s, t);
    CastCounted(net, s);
    TalliedVotes(net, s, f, t, judgement);
    forall j: nat
      ensures DecidedAt(net, f.h, j)
    {
      assert DecidedAt(net, s.h, j);
      if j != s.round {
        OtherVotes(net, s.h, f.h, s.round, t, j, net.o);
      }
    }
  }

  lemma TalliedScript(net: Net, s: State, f: State, t: nat, judgement: bool)
    requires Rest(net, s) && Base(net, f) && t < net.n && t != net.o && net.parent[t] == net.o
    requires BallotOut(s, t) && Tallied(net, s, f, t, judgement)
    ensures ScriptOk(net, f) && Ordered(f.h.out[net.o])
  {
    VoteFacts(net, s, t);
    TalliedVotes(net, s, f, t, judgement);
    if Last(s) {
      OrderedExtend(s.h.out[net.o], Decision(s.round, f.h.decisions[s.round]));
    }
    forall r: nat, j: nat | r < net.n
      ensures DecisionsKnown(f, r, j)
    {
      assert DecisionsKnown(s, r, j);
    }
  }

  lemma TalliedCurrent(net: Net, s: State, f: State, t: nat, judgement: bool)
    requires Rest(net, s) && Base(net, f) && t < net.n && t != net.o && net.parent[t] == net.o
    requires BallotOut(s, t) && Tallied(net, s, f, t, judgement)
    requires JudgedOk(net, f) && CastOk(net, f)
    ensures CurrentOk(net, f)
  {
    VoteFacts(net, s, t);
    TalliedVotes(net, s, f, t, judgement);
    forall c: nat, j: nat | c < net.n && c != net.o
      ensures CurrentAt(net, f, c, j)
    {
      assert CurrentAt(net, s, c, j);
      if Last(s) && j == s.round && Proposal(j) in f.h.out[net.parent[c]] {
        AllCounted(net, f, j, c);
      }
    }
  }

  lemma TalliedRest(net: Net, s: State, f: State, t: nat, judgement: bool)
    requires Rest(net, s) && Base(net, f) && t < net.n && t != net.o && net.parent[t] == net.o
    requires BallotOut(s, t) && Tallied(net, s, f, t, judgement)
    ensures Rest(net, f)
  {
    CountedCommon(net, s, f, t);
    TalliedTallies(net, s, f, t, judgement);
    TalliedOwn(net, s, f, t, judgement);
    TalliedScript(net, s, f, t, judgement);
    TalliedCurrent(net, s, f, t, judgement);
  }

  /** The state right after the ballot of `t` was taken and counted. */
  function CountedAfter(net: Net, s: State, t: nat): State
    requires |net.parent| == net.n && t < net.n && net.parent[t] < net.n
    requires Enabled(net, s, Recv(t, net.parent[t], true))
  {
    var u := Take(net, s, t, net.parent[t]);
    u.(h := u.h.(counted := u.h.counted + {Key(s.round, t)}))
  }

  /** Merging a vote touches no channel, except that the last one sends a ballot up. */
  lemma MergeWires(net: Net, c: State, src: nat, p: nat, yes: bool, judgement: bool, u: State)
    requires Wires(net, c) && Sized(net, u) && p < net.n && p != net.o && |c.pending[p]| == 1
    requires c == u.(h := u.h.(counted := u.h.counted + {Key(c.round, src)}))
    requires c.pending[p][0].round == c.round && c.pending[p][0].voteTo == net.parent[p]
    requires Key(c.round, p) !in c.h.cast && Key(c.round, p) !in c.h.counted
    ensures Wires(net, OnVote(net, u, src, p, c.round, yes, judgement))
  {
    var first := c.pending[p][0];
    var e := first.(recved := first.recved + 1, vote := first.vote && yes);
    var m := c.(pending := c.pending[p := c.pending[p][0 := e]]);
    SameWires(net, c, m);
    if e.recved == e.needed {
      VoteBackWires(net, m, p, e.vote);
    }
  }

  lemma InnerVoteWires(net: Net, s: State, t: nat, judgement: bool)
    requires Inv(net, s) && t < net.n && t != net.o && net.parent[t] != net.o
    requires BallotOut(s, t) && s.chan[(t, net.parent[t])].Waiting()
    ensures Wires(net, OnVote(net, Take(net, s, t, net.parent[t]), t, net.parent[t],
                              s.round, s.h.cast[Key(s.round, t)], judgement))
  {
    var p := net.parent[t];
    VoteFacts(net, s, t);
    TakeUpWires(net, s, t);
    TreeEdge(net, p, t);
    MergeWires(net, CountedAfter(net, s, t), t, p, s.h.cast[Key(s.round, t)], judgement, Take(net, s, t, p));
  }

  lemma InnerVoteInv(net: Net, s: State, t: nat, judgement: bool)
    requires Inv(net, s) && t < net.n && t != net.o && net.parent[t] != net.o
    requires BallotOut(s, t) && s.chan[(t, net.parent[t])].Waiting()
    ensures Inv(net, OnVote(net, Take(net, s, t, net.parent[t]), t, net.parent[t],
                            s.round, s.h.cast[Key(s.round, t)], judgement))
  {
    var p := net.parent[t];
    var f := OnVote(net, Take(net, s, t, p), t, p, s.round, s.h.cast[Key(s.round, t)], judgement);
    VoteFacts(net, s, t);
    InnerVoteWires(net, s, t, judgement);
    InnerVoteIsMerged(net, s, t, judgement);
    MergedRest(net, s, f, t);
  }

  lemma InnerVoteIsMerged(net: Net, s: State, t: nat, judgement: bool)
    requires Base(net, s) && t < net.n && t != net.o && net.parent[t] != net.o
    requires BallotOut(s, t) && s.chan[(t, net.parent[t])].Waiting()
    requires |s.pending[net.parent[t]]| == 1
    requires s.pending[net.parent[t]][0].round == s.round
    ensures var f := OnVote(net, Take(net, s, t, net.parent[t]), t, net.parent[t],
                            s.round, s.h.cast[Key(s.round, t)], judgement);
      Sized(net, f) && Merged(net, s, f, t)
  {
    TreeEdge(net, net.parent[t], t);
    var p := net.parent[t];
    var e := s.pending[p][0];
    var g := e.(recved := e.recved + 1, vote := e.vote && s.h.cast[Key(s.round, t)]);
    assert s.pending[p][0 := g] == [g];
  }

  lemma StarterVoteInv(net: Net, s: State, t: nat, judgement: bool)
    requires Inv(net, s) && t < net.n && t != net.o && net.parent[t] == net.o
    requires BallotOut(s, t) && s.chan[(t, net.o)].Waiting()
    ensures Inv(net, OnVote(net, Take(net, s, t, net.o), t, net.o,
                            s.round, s.h.cast[Key(s.round, t)], judgement))
  {
    var v := s.h.cast[Key(s.round, t)];
    var f := OnVote(net, Take(net, s, t, net.o), t, net.o, s.round, v, judgement);
    TakeUpWires(net, s, t);
    var c := CountedAfter(net, s, t);
    var own := s.own.(recved := s.own.recved + 1, vote := s.own.vote && v);
    if own.recved != own.needed {
      SameWires(net, c, f);
    } else {
      DecideWires(net, c, own, judgement);
    }
    StarterVoteIsTallied(net, s, t, judgement);
    TalliedRest(net, s, f, t, judgement);
  }

  lemma DecideWires(net: Net, c: State, own: Own, judgement: bool)
    requires Wires(net, c)
    ensures Wires(net, Decide(net, c, own, judgement))
  {
    var k := c.round;
    var yes := own.vote && judgement;
    var h := c.h.(self := if own.vote then c.h.self[k := judgement] else c.h.self,
                  decisions := c.h.decisions[k := yes]);
    var d := c.(own := own.(vote := yes, decided := true), h := h);
    SameWires(net, c, d);
    SpreadWires(net, d, net.o, net.initial, Decision(k, yes));
  }

  lemma StarterVoteIsTallied(net: Net, s: State, t: nat, judgement: bool)
    requires Base(net, s) && t < net.n && t != net.o && net.parent[t] == net.o
    requires BallotOut(s, t) && s.chan[(t, net.o)].Waiting()
    ensures var f := OnVote(net, Take(net, s, t, net.o), t, net.o, s.round, s.h.cast[Key(s.round, t)], judgement);
      Sized(net, f) && Tallied(net, s, f, t, judgement)
  {
    TreeEdge(net, net.o, t);
  }

  // ---------------------------------------------------------------- a decision arrives

  /** `f` is `s` after rank `t` took the decision of round `k`. */
  ghost predicate Settled(net: Net, s: State, f: State, t: nat, k: nat, yes: bool)
    requires WellNet(net) && Sized(net, s) && Sized(net, f) && t < net.n
  {
    && f.round == s.round && f.own == s.own
    && f.h.judged == s.h.judged && f.h.cast == s.h.cast && f.h.counted == s.h.counted
    && f.h.self == s.h.self && f.h.decisions == s.h.decisions
    && f.h.outcome ==
       s.h.outcome[Key(k, t) := if s.pending[t] == [] then None else Some(s.pending[t][0].round)]
    && f.h.out == s.h.out[t := s.h.out[t] + [Decision(k, yes)]]
    && f.pending == s.pending[t := if s.pending[t] == [] then [] else s.pending[t][1..]]
    && (forall c: nat | c < net.n && c != net.o :: Got(net, f, c) == Got(net, s, c) + if c == t then 1 else 0)
  }

  lemma SettledBase(net: Net, s: State, f: State, t: nat, k: nat, yes: bool)
    requires Base(net, s) && Sized(net, f)
    requires Incoming(net, s, t, Decision(k, yes)) && Settled(net, s, f, t, k, yes)
    ensures Base(net, f)
    ensures Taken(net, f, t) == Taken(net, s, t) + [Decision(k, yes)]
    ensures forall c: nat | c < net.n && c != net.o && c != t :: Untouched(net, s, f, c)
  {
    assert TreeStep(net, t);
  }

  lemma DecisionFacts(net: Net, s: State, t: nat, k: nat, yes: bool)
    requires Rest(net, s) && Incoming(net, s, t, Decision(k, yes))
    ensures k == CountD(s.h.out[t]) + 1 && Ordered(s.h.out[t])
    ensures k in s.h.decisions && s.h.decisions[k] == yes
    ensures Open(s.h.out[t]) == if True(s.h.judged, k, t) then k else 0
    ensures s.pending[t] == Expected(net, s, t)
  {
    var p := net.parent[t];
    var g := Got(net, s, t);
    assert p != net.o ==> LogAt(net, s, p);
    assert LogAt(net, s, t);
    assert OrderedAt(s.h.out[p], g);
    assert DecisionsKnown(s, p, k);
    assert JudgedAt(net, s, t, k);
    if True(s.h.judged, k, t) {
      OpenIs(s.h.out[t], k);
    } else if Open(s.h.out[t]) != 0 {
      OpenRound(s.h.out[t]);
    }
  }

  lemma SettledLogs(net: Net, s: State, f: State, t: nat, k: nat, yes: bool)
    requires Rest(net, s) && Sized(net, f)
    requires Incoming(net, s, t, Decision(k, yes)) && Settled(net, s, f, t, k, yes)
    ensures Base(net, f) && LogsOk(net, f)
  {
    DecisionFacts(net, s, t, k, yes);
    SettledBase(net, s, f, t, k, yes);
    assert LogAt(net, s, t);
    forall c: nat | c < net.n && c != net.o
      ensures LogAt(net, f, c)
    {
      if c != t {
        assert LogAt(net, s, c);
        UntouchedLog(net, s, f, c);
      } else {
        assert Taken(net, f, t)[..|Taken(net, s, t)|] == Taken(net, s, t);
        OrderedExtend(s.h.out[t], Decision(k, yes));
      }
    }
  }

  lemma SettledJudged(net: Net, s: State, f: State, t: nat, k: nat, yes: bool)
    requires Rest(net, s) && Sized(net, f)
    requires Incoming(net, s, t, Decision(k, yes)) && Settled(net, s, f, t, k, yes)
    ensures Base(net, f) && JudgedOk(net, f)
  {
    SettledBase(net, s, f, t, k, yes);
    forall c: nat, j: nat | c < net.n && c != net.o
      ensures JudgedAt(net, f, c, j)
    {
      assert JudgedAt(net, s, c, j);
      if c != t {
        UntouchedJudged(net, s, f, c, j);
      }
    }
  }

  lemma SettledScript(net: Net, s: State, f: State, t: nat, k: nat, yes: bool)
    requires Rest(net, s) && Base(net, f)
    requires Incoming(net, s, t, Decision(k, yes)) && Settled(net, s, f, t, k, yes)
    ensures ScriptOk(net, f)
  {
    DecisionFacts(net, s, t, k, yes);
    forall r: nat, j: nat | r < net.n
      ensures DecisionsKnown(f, r, j)
    {
      assert DecisionsKnown(s, r, j);
    }
  }

  lemma SettledTallies(net: Net, s: State, f: State, t: nat, k: nat, yes: bool)
    requires Rest(net, s) && Base(net, f)
    requires Incoming(net, s, t, Decision(k, yes)) && Settled(net, s, f, t, k, yes)
    ensures PendingOk(net, f) && CastOk(net, f) && CurrentOk(net, f) && OwnOk(net, f)
  {
    DecisionFacts(net, s, t, k, yes);
    OrderedExtend(s.h.out[t], Decision(k, yes));
    forall c: nat | c < net.n && c != net.o
      ensures f.pending[c] == Expected(net, f, c)
    {
      AllYesSame(net, s.h, f.h, Open(s.h.out[c]), c);
    }
    AllYesSame(net, s.h, f.h, s.round, net.o);
    forall j: nat
      ensures DecidedAt(net, f.h, j)
    {
      assert DecidedAt(net, s.h, j);
      AllYesSame(net, s.h, f.h, j, net.o);
    }
    forall c: nat, j: nat | c < net.n && c != net.o
      ensures CastAt(net, f.h, c, j) && CurrentAt(net, f, c, j)
    {
      assert CastAt(net, s.h, c, j) && CurrentAt(net, s, c, j);
      AllYesSame(net, s.h, f.h, j, c);
    }
  }

  lemma SettledOutcome(net: Net, s: State, f: State, t: nat, k: nat, yes: bool)
    requires Rest(net, s) && Base(net, f)
    requires Incoming(net, s, t, Decision(k, yes)) && Settled(net, s, f, t, k, yes)
    ensures OutcomeOk(net, f)
  {
    DecisionFacts(net, s, t, k, yes);
    OrderedExtend(s.h.out[t], Decision(k, yes));
    forall c: nat, j: nat | c < net.n && c != net.o
      ensures OutcomeAt(net, f, c, j)
    {
      assert OutcomeAt(net, s, c, j);
    }
  }

  lemma SettledRest(net: Net, s: State, f: State, t: nat, k: nat, yes: bool)
    requires Rest(net, s) && Sized(net, f)
    requires Incoming(net, s, t, Decision(k, yes)) && Settled(net, s, f, t, k, yes)
    ensures Rest(net, f)
  {
    SettledLogs(net, s, f, t, k, yes);
    SettledJudged(net, s, f, t, k, yes);
    SettledScript(net, s, f, t, k, yes);
    SettledTallies(net, s, f, t, k, yes);
    SettledOutcome(net, s, f, t, k, yes);
  }

  lemma DecisionIsSettled(net: Net, s: State, t: nat, k: nat, yes: bool)
    requires Base(net, s) && t < net.n && t != net.o && s.chan[(net.parent[t], t)].Waiting()
    ensures var f := OnDecision(net, Take(net, s, net.parent[t], t), net.parent[t], t, k, yes);
      Sized(net, f) && Settled(net, s, f, t, k, yes)
  {
    assert TreeStep(net, t);
  }

  lemma DecisionWires(net: Net, s: State, t: nat, k: nat, yes: bool)
    requires Wires(net, s) && t < net.n && t != net.o && s.chan[(net.parent[t], t)].Waiting()
    ensures Wires(net, OnDecision(net, Take(net, s, net.parent[t], t), net.parent[t], t, k, yes))
  {
    var p := net.parent[t];
    assert TreeStep(net, t);
    TakeDownWires(net, s, t);
    var u := Take(net, s, p, t);
    var found := if u.pending[t] == [] then None else Some(u.pending[t][0].round);
    var rest := if u.pending[t] == [] then [] else u.pending[t][1..];
    var d := u.(pending := u.pending[t := rest], h := u.h.(outcome := u.h.outcome[Key(k, t) := found]));
    SameWires(net, u, d);
    SpreadWires(net, d, t, net.forward(t, p), Decision(k, yes));
  }

  lemma DecisionInv(net: Net, s: State, t: nat, k: nat, yes: bool)
    requires Inv(net, s) && t < net.n && t != net.o && s.chan[(net.parent[t], t)].Waiting()
    requires Incoming(net, s, t, Decision(k, yes))
    ensures Inv(net, OnDecision(net, Take(net, s, net.parent[t], t), net.parent[t], t, k, yes))
  {
    DecisionWires(net, s, t, k, yes);
    DecisionIsSettled(net, s, t, k, yes);
    SettledRest(net, s, OnDecision(net, Take(net, s, net.parent[t], t), net.parent[t], t, k, yes), t, k, yes);
  }

  // ---------------------------------------------------------------- every run

  lemma InitInv(net: Net)
    requires WellNet(net)
    ensures Inv(net, Init(net))
  {
    var s := Init(net);
    assert Base(net, s);
    assert Wires(net, s);
    InitTallies(net);
  }

  lemma InitTallies(net: Net)
    requires WellNet(net) && Base(net, Init(net))
    ensures Rest(net, Init(net))
  {
    var s := Init(net);
    forall c: nat, k: nat | c < net.n && c != net.o
      ensures JudgedAt(net, s, c, k)
    {
    }
    forall c: nat, k: nat | c < net.n && c != net.o
      ensures CastAt(net, s.h, c, k) && CurrentAt(net, s, c, k) && OutcomeAt(net, s, c, k)
    {
    }
  }

  lemma RecvInv(net: Net, s: State, src: nat, dst: nat, judgement: bool)
    requires Inv(net, s) && Enabled(net, s, Recv(src, dst, judgement))
    ensures Inv(net, Apply(net, s, Recv(src, dst, judgement)))
  {
    HeadKind(net, s, src, dst);
    assert WireAt(net, s, src, dst);
    match s.chan[(src, dst)].Head()
    case Proposal(k) => ProposalInv(net, s, dst, k, judgement);
    case Decision(k, yes) => DecisionInv(net, s, dst, k, yes);
    case Vote(k, yes) =>
      if dst == net.o {
        StarterVoteInv(net, s, src, judgement);
      } else {
        InnerVoteInv(net, s, src, judgement);
      }
  }

  lemma {:induction false} RunInv(net: Net, acts: seq<Action>)
    requires WellNet(net) && Run(net, acts).Some?
    ensures Inv(net, Run(net, acts).value)
  {
    if acts == [] {
      InitInv(net);
    } else {
      var before := acts[..|acts| - 1];
      RunInv(net, before);
      var s := Run(net, before).value;
      match acts[|acts| - 1]
      case Submit => SubmitInv(net, s);
      case Recv(src, dst, judgement) => RecvInv(net, s, src, dst, judgement);
    }
  }
}
