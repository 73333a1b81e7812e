/** The voting handlers as the engine runs them: one queue of pending proposals for all starters,
    searched by proposal id and updated in place. */
module Handlers {
  import opened Common
  import opened SkipRing
  import N = VotingNet
  import V = Voting

  /** A proposal waiting in queue_iar_pending. */
  datatype PropState = PropState(pid: int, from: nat, needed: nat, recved: nat, vote: bool)

  /** `my_own_proposal`; `decided` once the decision has been broadcast. */
  datatype Own = Own(pid: int, needed: nat, recved: nat, vote: bool, decided: bool)

  datatype Tag = PROPOSAL | VOTE | DECISION
  datatype Frame = Frame(tag: Tag, pid: int, vote: bool)
  datatype Sent = Sent(dst: nat, frame: Frame)

  /** What a decision leaves for the application: a proposal that was accepted, or the decision
      itself when it matched none. */
  datatype Pickup = Accepted(proposal: PropState) | Unmatched(pid: int, vote: bool)

  /** What the handlers of one rank read and write. */
  datatype Local = Local(own: Own, pending: seq<PropState>, outbox: seq<Sent>, pickup: seq<Pickup>)

  function ToAll(to: seq<nat>, f: Frame): (s: seq<Sent>)
    ensures |s| == |to|
  {
    seq(|to|, k requires 0 <= k < |to| => Sent(to[k], f))
  }

  // ---- the search ----

  predicate IsFirst(q: seq<PropState>, pid: int, i: nat) {
    && i <= |q| && (forall j | 0 <= j < i :: q[j].pid != pid)
    && (i < |q| ==> q[i].pid == pid)
  }

  /** Position of the first pending proposal of `pid`, or the length of the queue. */
  function First(q: seq<PropState>, pid: int): (i: nat)
    ensures IsFirst(q, pid, i)
  {
    if q == [] then 0
    else
      var i := First(q[..|q| - 1], pid);
      if i < |q| - 1 || q[|q| - 1].pid == pid then i else |q|
  }

  function Remove(q: seq<PropState>, i: nat): seq<PropState>
    requires i < |q|
  {
    q[..i] + q[i + 1..]
  }

  // ---- what each handler does ----

  function Ballot(l: Local, to: nat, pid: int, yes: bool): Local {
    l.(outbox := l.outbox + [Sent(to, Frame(VOTE, pid, yes))])
  }

  /** The own proposal starts afresh even if it then cannot be serialised and nothing is sent. */
  function AfterSubmit(n: nat, r: nat, l: Local, pid: int, fails: bool): Local
    requires n >= 2
  {
    var to := Initial(n, r);
    var l1 := l.(own := Own(pid, |to|, 0, true, false));
    if fails then l1 else l1.(outbox := l.outbox + ToAll(to, Frame(PROPOSAL, pid, true)))
  }

  /** A judgement other than 0 and 1 is neither voted on nor forwarded. */
  function AfterProposal(
      n: nat, r: nat, l: Local, origin: nat, source: nat, pid: int, judgement: int): Local
    requires n >= 2
  {
    if pid == l.own.pid then l
    else if judgement == 0 then Ballot(l, source, pid, false)
    else if judgement == 1 then
      var to := Forwards(n, r, origin, source);
      var l1 := l.(pending := l.pending + [PropState(pid, source, |to|, 0, true)],
                   outbox := l.outbox + ToAll(to, Frame(PROPOSAL, pid, true)));
      if to == [] then Ballot(l1, source, pid, true) else l1
    else l
  }

  function AfterVote(n: nat, r: nat, l: Local, pid: int, vote: bool, judgement: bool): Local
    requires n >= 2
  {
    if pid == l.own.pid then
      var own := l.own.(recved := l.own.recved + 1, vote := l.own.vote && vote);
      if own.recved != own.needed then l.(own := own)
      else
        var yes := own.vote && judgement;
        l.(own := own.(vote := yes, decided := true),
           outbox := l.outbox + ToAll(Initial(n, r), Frame(DECISION, pid, yes)))
    else
      var i := First(l.pending, pid);
      if pid < 0 || i == |l.pending| then l
      else
        var e := l.pending[i].(recved := l.pending[i].recved + 1, vote := l.pending[i].vote && vote);
        var l1 := l.(pending := l.pending[i := e]);
        if e.recved == e.needed then Ballot(l1, e.from, pid, e.vote) else l1
  }

  /** A refused proposal leaves the engine altogether; an accepted one, and a decision that finds
      none, go to the application. */
  function AfterDecision(n: nat, r: nat, l: Local, origin: nat, source: nat, pid: int, vote: bool): Local
    requires n >= 2
  {
    var i := First(l.pending, pid);
    var found := pid >= 0 && i < |l.pending|;
    l.(pending := if found then Remove(l.pending, i) else l.pending,
       pickup := l.pickup +
         if !found then [Unmatched(pid, vote)]
         else if vote then [Accepted(l.pending[i].(vote := true))]
         else [],
       outbox := l.outbox + ToAll(Forwards(n, r, origin, source), Frame(DECISION, pid, vote)))
  }

  // ---- the engine ----

  class VotingEngine {
    const comm: Bcomm
    var own: Own
    var pending: seq<PropState>
    var outbox: seq<Sent>
    var pickup: seq<Pickup>

    ghost predicate Valid()
      reads this, comm, comm.sendList
    {
      comm.Valid()
    }

    ghost function View(): Local
      reads this
    {
      Local(own, pending, outbox, pickup)
    }

    constructor (comm: Bcomm)
      requires comm.Valid()
      ensures this.comm == comm && Valid() && View() == Local(Own(-1, 0, 0, true, false), [], [], [])
    {
      this.comm := comm;
      own, pending, outbox, pickup := Own(-1, 0, 0, true, false), [], [], [];
    }

    /** _find_proposal_msg */
    method FindProposalMsg(pid: int) returns (found: bool, i: nat)
      ensures found <==> pid >= 0 && First(pending, pid) < |pending|
      ensures found ==> i == First(pending, pid)
    {
      i := 0;
      if pid < 0 {
        return false, 0;
      }
      while i < |pending|
        invariant i <= |pending| && forall j | 0 <= j < i :: pending[j].pid != pid
      {
        if pending[i].pid == pid {
          return true, i;
        }
        i := i + 1;
      }
      found := false;
    }

    /** The sends of RLO_bcast_gen. */
    method BcastGen(f: Frame)
      requires Valid()
      modifies this`outbox
      ensures outbox == old(outbox) + ToAll(Initial(comm.worldSize, comm.myRank), f)
    {
      var i: int := comm.sendListLen - 1;
      ghost var all := ToAll(Initial(comm.worldSize, comm.myRank), f);
      while i >= 0
        invariant -1 <= i < comm.sendListLen == |all|
        invariant outbox == old(outbox) + all[..comm.sendListLen - 1 - i]
      {
        assert all[comm.sendListLen - 1 - i] == Sent(comm.sendList[i], f);
        outbox := outbox + [Sent(comm.sendList[i], f)];
        i := i - 1;
      }
      assert all[..comm.sendListLen] == all;
    }

    /** The sends of _bc_forward. */
    method BcForward(origin: nat, source: nat, f: Frame) returns (cnt: nat)
      requires Valid()
      modifies this`outbox
      ensures var to := Forwards(comm.worldSize, comm.myRank, origin, source);
        cnt == |to| && outbox == old(outbox) + ToAll(to, f)
    {
      var posted := comm.Forward(origin, source);
      cnt := |posted|;
      outbox := outbox + seq(cnt, k requires 0 <= k < cnt => Sent(posted[k].to, f));
    }

    /** _vote_back */
    method VoteBack(to: nat, pid: int, vote: bool)
      modifies this`outbox
      ensures View() == Ballot(old(View()), to, pid, vote)
    {
      outbox := outbox + [Sent(to, Frame(VOTE, pid, vote))];
    }

    /** RLO_submit_proposal.  The one way to fail is an empty proposal that comes with a pointer. */
    method SubmitProposal(pid: int, size: nat, hasData: bool) returns (ok: bool)
      requires Valid()
      modifies this
      ensures ok <==> size > 0 || !hasData
      ensures View() == AfterSubmit(comm.worldSize, comm.myRank, old(View()), pid, !ok)
      ensures own == Own(pid, |Initial(comm.worldSize, comm.myRank)|, 0, true, false)
      ensures pending == old(pending) && pickup == old(pickup) && (!ok ==> outbox == old(outbox))
    {
      own := Own(pid, comm.sendListLen, 0, true, false);
      if size == 0 {
        if hasData {
          return false;
        }
      }
      BcastGen(Frame(PROPOSAL, pid, true));
      ok := true;
    }

    /** _iar_proposal_handler */
    method ProposalHandler(origin: nat, source: nat, pid: int, judgement: int) returns (ret: int)
      requires Valid()
      modifies this
      ensures View() == AfterProposal(comm.worldSize, comm.myRank, old(View()), origin, source, pid, judgement)
      ensures ret == if pid == old(own.pid) then -1 else 0
      ensures ret == -1 || (judgement != 0 && judgement != 1) ==> View() == old(View())
      ensures old(pending) <= pending && pickup == old(pickup)
    {
      if pid == own.pid {
        return -1;
      }
      var needed := comm.FwdSendCnt(origin, source);
      if judgement == 0 {
        VoteBack(source, pid, false);
      } else if judgement == 1 {
        var cnt := BcForward(origin, source, Frame(PROPOSAL, pid, true));
        pending := pending + [PropState(pid, source, needed, 0, true)];
        if cnt == 0 {
          VoteBack(source, pid, true);
        }
      }
      ret := 0;
    }

    /** _vote_merge: -1 if nothing is pending, 1 once the last vote is in. */
    method VoteMerge(pid: int, vote: bool) returns (ret: int, merged: PropState)
      modifies this`pending
      ensures var i := First(old(pending), pid);
        if pid < 0 || i == |old(pending)| then ret == -1 && pending == old(pending)
        else
          var e := old(pending)[i];
          && merged == e.(recved := e.recved + 1, vote := e.vote && vote)
          && pending == old(pending)[i := merged]
          && ret == if merged.recved == merged.needed then 1 else 0
    {
      var found, i := FindProposalMsg(pid);
      if !found {
        return -1, PropState(-1, 0, 0, 0, true);
      }
      merged := pending[i].(vote := pending[i].vote && vote);
      merged := merged.(recved := merged.recved + 1);
      pending := pending[i := merged];
      ret := if merged.needed == merged.recved then 1 else 0;
    }

    /** _iar_vote_handler; `judgement` is what the callback says about the rank's own proposal. */
    method VoteHandler(pid: int, vote: bool, judgement: bool) returns (ret: int)
      requires Valid()
      modifies this
      ensures View() == AfterVote(comm.worldSize, comm.myRank, old(View()), pid, vote, judgement)
      ensures var known := pid == old(own.pid) || (pid >= 0 && First(old(pending), pid) < |old(pending)|);
        ret == if known then 0 else -1
      ensures ret == -1 ==> View() == old(View())
    {
      if pid == own.pid {
        own := own.(recved := own.recved + 1, vote := own.vote && vote);
        if own.recved == own.needed {
          if own.vote {
            own := own.(vote := judgement);
          }
          BcastGen(Frame(DECISION, pid, own.vote));
          own := own.(decided := true);
        }
        return 0;
      }
      var merged;
      ret, merged := VoteMerge(pid, vote);
      if ret >= 0 {
        if ret == 1 {
          VoteBack(merged.from, merged.pid, merged.vote);
        }
        ret := 0;
      }
    }

    /** _iar_decision_handler and the forward that follows it. */
    method DecisionHandler(origin: nat, source: nat, pid: int, vote: bool) returns (ret: int)
      requires Valid()
      modifies this
      ensures View() == AfterDecision(comm.worldSize, comm.myRank, old(View()), origin, source, pid, vote)
      ensures ret == if pid < 0 || First(old(pending), pid) == |old(pending)| then -1 else 0
      ensures old(pickup) <= pickup && own == old(own)
    {
      var found, i := FindProposalMsg(pid);
      if !found {
        pickup := pickup + [Unmatched(pid, vote)];
      } else {
        var proposal := pending[i];
        pending := pending[..i] + pending[i + 1..];
        if vote {
          proposal := proposal.(vote := true);
          pickup := pickup + [Accepted(proposal)];
        }
      }
      var cnt := BcForward(origin, source, Frame(DECISION, pid, vote));
      ret := if found then 0 else -1;
    }
  }

  // ---- one starter's share of the queue ----

  /** The pending proposals of `pid`, in queue order. */
  function ForPid(q: seq<PropState>, pid: int): (r: seq<PropState>)
  {
    if q == [] then []
    else ForPid(q[..|q| - 1], pid) + if q[|q| - 1].pid == pid then [q[|q| - 1]] else []
  }

  lemma {:induction false} ForPidConcat(a: seq<PropState>, b: seq<PropState>, pid: int)
    ensures ForPid(a + b, pid) == ForPid(a, pid) + ForPid(b, pid)
  {
    if b == [] {
      assert a + b == a;
    } else {
      assert (a + b)[..|a + b| - 1] == a + b[..|b| - 1];
      ForPidConcat(a, b[..|b| - 1], pid);
    }
  }

  lemma {:induction false} ForPidNone(q: seq<PropState>, pid: int)
    ensures ForPid(q, pid) == [] <==> First(q, pid) == |q|
  {
    if q != [] {
      ForPidNone(q[..|q| - 1], pid);
    }
  }

  lemma ForPidParts(q: seq<PropState>, i: nat, pid: int)
    requires i < |q|
    ensures ForPid(q, pid) == ForPid(q[..i], pid) + ForPid([q[i]], pid) + ForPid(q[i + 1..], pid)
    ensures ForPid(Remove(q, i), pid) == ForPid(q[..i], pid) + ForPid(q[i + 1..], pid)
  {
    assert q == q[..i] + [q[i]] + q[i + 1..];
    ForPidConcat(q[..i] + [q[i]], q[i + 1..], pid);
    ForPidConcat(q[..i], [q[i]], pid);
    ForPidConcat(q[..i], q[i + 1..], pid);
  }

  lemma ForPidOne(e: PropState, pid: int)
    ensures ForPid([e], pid) == if e.pid == pid then [e] else []
  {
    assert ForPid([e][..0], pid) == [];
  }

  lemma NoneBefore(q: seq<PropState>, pid: int)
    ensures ForPid(q[..First(q, pid)], pid) == []
  {
    ForPidNone(q[..First(q, pid)], pid);
  }

  /** Whatever replaces the first proposal of `pid`, the rest of that starter's share stays. */
  lemma FirstOfShare(q: seq<PropState>, pid: int)
    requires First(q, pid) < |q|
    ensures ForPid(q, pid) == [q[First(q, pid)]] + ForPid(q[First(q, pid) + 1..], pid)
    ensures ForPid(Remove(q, First(q, pid)), pid) == ForPid(q[First(q, pid) + 1..], pid)
  {
    var i := First(q, pid);
    ForPidParts(q, i, pid);
    ForPidOne(q[i], pid);
    NoneBefore(q, pid);
  }

  lemma OtherShare(q: seq<PropState>, i: nat, other: int)
    requires i < |q| && q[i].pid != other
    ensures ForPid(Remove(q, i), other) == ForPid(q, other)
  {
    ForPidParts(q, i, other);
    ForPidOne(q[i], other);
  }

  lemma SameFirst(q: seq<PropState>, e: PropState)
    requires First(q, e.pid) < |q|
    ensures var i := First(q, e.pid); var r := q[i := e];
      First(r, e.pid) == i && r[i + 1..] == q[i + 1..] && Remove(r, i) == Remove(q, i)
  {
    var i := First(q, e.pid);
    FirstUnique(q[i := e], e.pid, i, First(q[i := e], e.pid));
  }

  lemma FirstUnique(q: seq<PropState>, pid: int, i: nat, j: nat)
    requires IsFirst(q, pid, i) && IsFirst(q, pid, j)
    ensures i == j
  {
  }

  lemma ReplaceFirst(q: seq<PropState>, e: PropState)
    requires First(q, e.pid) < |q|
    ensures var i := First(q, e.pid);
      && ForPid(q, e.pid) == [q[i]] + ForPid(q[i + 1..], e.pid)
      && ForPid(q[i := e], e.pid) == [e] + ForPid(q[i + 1..], e.pid)
  {
    SameFirst(q, e);
    FirstOfShare(q, e.pid);
    FirstOfShare(q[First(q, e.pid) := e], e.pid);
  }

  lemma ReplaceKeepsOthers(q: seq<PropState>, e: PropState, other: int)
    requires First(q, e.pid) < |q| && other != e.pid
    ensures ForPid(q[First(q, e.pid) := e], other) == ForPid(q, other)
  {
    var i := First(q, e.pid);
    SameFirst(q, e);
    OtherShare(q, i, other);
    OtherShare(q[i := e], i, other);
  }

  lemma AppendOne(q: seq<PropState>, e: PropState, pid: int)
    ensures ForPid(q + [e], pid) == ForPid(q, pid) + if e.pid == pid then [e] else []
  {
    ForPidConcat(q, [e], pid);
    ForPidOne(e, pid);
  }

  /** Handling a vote, decision or proposal of one starter never disturbs another's share. */
  lemma VotesDisturbNobody(n: nat, r: nat, l: Local, pid: int, vote: bool, j: bool, other: int)
    requires n >= 2 && other != pid
    ensures ForPid(AfterVote(n, r, l, pid, vote, j).pending, other) == ForPid(l.pending, other)
  {
    var i := First(l.pending, pid);
    if i < |l.pending| {
      ReplaceKeepsOthers(l.pending, Merged(l.pending[i], vote), other);
    }
  }

  lemma DecisionsDisturbNobody(
      n: nat, r: nat, l: Local, origin: nat, source: nat, pid: int, vote: bool, other: int)
    requires n >= 2 && other != pid
    ensures ForPid(AfterDecision(n, r, l, origin, source, pid, vote).pending, other) == ForPid(l.pending, other)
  {
    var i := First(l.pending, pid);
    if i < |l.pending| {
      OtherShare(l.pending, i, other);
    }
  }

  lemma ProposalsDisturbNobody(
      n: nat, r: nat, l: Local, origin: nat, source: nat, pid: int, judgement: int, other: int)
    requires n >= 2 && other != pid
    ensures ForPid(AfterProposal(n, r, l, origin, source, pid, judgement).pending, other)
      == ForPid(l.pending, other)
  {
    var to := Forwards(n, r, origin, source);
    AppendOne(l.pending, PropState(pid, source, |to|, 0, true), other);
  }

  // ---- the handlers carry out the protocol ----

  predicate Same(p: PropState, e: N.Entry) {
    p.from == e.voteTo && p.needed == e.needed && p.recved == e.recved && p.vote == e.vote
  }

  /** A starter's share of a rank's queue is that rank's queue in the protocol. */
  predicate Mirrors(q: seq<PropState>, es: seq<N.Entry>) {
    |q| == |es| && forall i | 0 <= i < |q| :: Same(q[i], es[i])
  }

  predicate OwnMirrors(own: Own, o: N.Own) {
    own.needed == o.needed && own.recved == o.recved && own.vote == o.vote && own.decided == o.decided
  }

  /** The message a frame is in round `k`. */
  function ToMsg(f: Frame, k: nat): N.Msg {
    match f.tag
    case PROPOSAL => N.Proposal(k)
    case VOTE => N.Vote(k, f.vote)
    case DECISION => N.Decision(k, f.vote)
  }

  /** The channels after rank `r` has posted these sends. */
  function Carry(c: N.Channels, r: nat, sends: seq<Sent>, k: nat): N.Channels {
    if sends == [] then c
    else
      var last := sends[|sends| - 1];
      N.SendAll(Carry(c, r, sends[..|sends| - 1], k), r, {last.dst}, ToMsg(last.frame, k))
  }

  lemma SendOneMore(c: N.Channels, r: nat, to: set<nat>, x: nat, m: N.Msg)
    requires x !in to
    ensures N.SendAll(N.SendAll(c, r, to, m), r, {x}, m) == N.SendAll(c, r, to + {x}, m)
  {
  }

  lemma TargetsMore(to: seq<nat>)
    requires to != [] && forall i, j | 0 <= i < j < |to| :: to[i] != to[j]
    ensures var front, x := to[..|to| - 1], to[|to| - 1];
      x !in Elements(front) && Elements(to) == Elements(front) + {x}
  {
    assert to == to[..|to| - 1] + [to[|to| - 1]];
  }

  lemma {:induction false} CarryAll(c: N.Channels, r: nat, to: seq<nat>, f: Frame, k: nat)
    requires forall i, j | 0 <= i < j < |to| :: to[i] != to[j]
    ensures Carry(c, r, ToAll(to, f), k) == N.SendAll(c, r, Elements(to), ToMsg(f, k))
  {
    if to == [] {
      assert N.SendAll(c, r, {}, ToMsg(f, k)) == c;
    } else {
      var front, x := to[..|to| - 1], to[|to| - 1];
      CarryAll(c, r, front, f, k);
      assert ToAll(to, f) == ToAll(front, f) + [Sent(x, f)];
      CarryMore(c, r, ToAll(front, f), Sent(x, f), k);
      TargetsMore(to);
      SendOneMore(c, r, Elements(front), x, ToMsg(f, k));
    }
  }

  lemma CarryMore(c: N.Channels, r: nat, sends: seq<Sent>, x: Sent, k: nat)
    ensures Carry(c, r, sends + [x], k) == N.SendAll(Carry(c, r, sends, k), r, {x.dst}, ToMsg(x.frame, k))
  {
    assert (sends + [x])[..|sends|] == sends;
  }

  /** RLO_submit_proposal starts the protocol's next round. */
  lemma SubmitRefines(n: nat, o: nat, s: N.State, l: Local, pid: int) returns (sends: seq<Sent>)
    requires n >= 2 && o < n && N.Sized(V.SkipRingNet(n, o), s)
    ensures var l1, s1 := AfterSubmit(n, o, l, pid, false), N.OnSubmit(V.SkipRingNet(n, o), s);
      && l1.own.pid == pid && OwnMirrors(l1.own, s1.own) && l1.pending == l.pending
      && l1.outbox == l.outbox + sends && s1.chan == Carry(s.chan, o, sends, s1.round)
  {
    InitialOnce(n, o);
    var to := Initial(n, o);
    sends := ToAll(to, Frame(PROPOSAL, pid, true));
    CarryAll(s.chan, o, to, Frame(PROPOSAL, pid, true), s.round + 1);
  }

  lemma InitialOnce(n: nat, o: nat)
    requires n >= 2 && o < n
    ensures var to := Initial(n, o);
      |Elements(to)| == |to| && forall i, j | 0 <= i < j < |to| :: to[i] != to[j]
  {
    InitialSends(n, o);
    ElementCount(Initial(n, o));
  }

  /** _iar_proposal_handler, on a judgement of 0 or 1. */
  lemma ProposalRefines(
      n: nat, o: nat, s: N.State, l: Local, dst: nat, pid: int, k: nat, judgement: bool)
      returns (sends: seq<Sent>)
    requires n >= 2 && o < n && N.Sized(V.SkipRingNet(n, o), s) && dst < n && dst != o
    requires pid != l.own.pid && Mirrors(ForPid(l.pending, pid), s.pending[dst])
    ensures var src := Parent(n, o, dst);
      var l1 := AfterProposal(n, dst, l, o, src, pid, if judgement then 1 else 0);
      var s1 := N.OnProposal(V.SkipRingNet(n, o), s, src, dst, k, judgement);
      && Mirrors(ForPid(l1.pending, pid), s1.pending[dst]) && l1.own == l.own
      && l1.outbox == l.outbox + sends && s1.chan == Carry(s.chan, dst, sends, k)
  {
    if judgement {
      sends := ApprovalRefines(n, o, s, l, dst, pid, k);
    } else {
      sends := [Sent(Parent(n, o, dst), Frame(VOTE, pid, false))];
      CarryOne(s.chan, dst, sends[0], k);
    }
  }

  lemma CarryOne(c: N.Channels, r: nat, x: Sent, k: nat)
    ensures Carry(c, r, [x], k) == N.SendAll(c, r, {x.dst}, ToMsg(x.frame, k))
  {
    assert [] + [x] == [x];
    CarryMore(c, r, [], x, k);
  }

  lemma ApprovalRefines(n: nat, o: nat, s: N.State, l: Local, dst: nat, pid: int, k: nat)
      returns (sends: seq<Sent>)
    requires n >= 2 && o < n && N.Sized(V.SkipRingNet(n, o), s) && dst < n && dst != o
    requires pid != l.own.pid && Mirrors(ForPid(l.pending, pid), s.pending[dst])
    ensures var src := Parent(n, o, dst);
      var l1 := AfterProposal(n, dst, l, o, src, pid, 1);
      var s1 := N.OnProposal(V.SkipRingNet(n, o), s, src, dst, k, true);
      && Mirrors(ForPid(l1.pending, pid), s1.pending[dst]) && l1.own == l.own
      && l1.outbox == l.outbox + sends && s1.chan == Carry(s.chan, dst, sends, k)
  {
    var src := Parent(n, o, dst);
    var to, f := Forwards(n, dst, o, src), Frame(PROPOSAL, pid, true);
    ForwardSends(n, o, dst);
    ElementCount(to);
    AppendOne(l.pending, PropState(pid, src, |to|, 0, true), pid);
    CarryAll(s.chan, dst, to, f, k);
    sends := ToAll(to, f);
    if to == [] {
      var x := Sent(src, Frame(VOTE, pid, true));
      CarryMore(s.chan, dst, sends, x, k);
      sends := sends + [x];
    }
  }

  /** One more vote counted for a pending proposal. */
  function Merged(e: PropState, vote: bool): PropState {
    e.(recved := e.recved + 1, vote := e.vote && vote)
  }

  lemma MergeMirrors(q: seq<PropState>, es: seq<N.Entry>, pid: int, vote: bool)
    requires Mirrors(ForPid(q, pid), es) && First(q, pid) < |q|
    ensures es != []
    ensures var i, e0 := First(q, pid), es[0];
      && Same(q[i], e0)
      && Mirrors(ForPid(q[i := Merged(q[i], vote)], pid),
                 es[0 := e0.(recved := e0.recved + 1, vote := e0.vote && vote)])
  {
    var i := First(q, pid);
    ReplaceFirst(q, Merged(q[i], vote));
    var share := ForPid(q, pid);
    assert share[0] == q[i] && forall j | 1 <= j < |share| :: Same(share[j], es[j]);
  }

  /** _iar_vote_handler at a rank that forwarded the proposal. */
  lemma VoteRefines(
      n: nat, o: nat, s: N.State, l: Local, src: nat, dst: nat, pid: int, k: nat, vote: bool, judgement: bool)
      returns (sends: seq<Sent>)
    requires n >= 2 && o < n && N.Sized(V.SkipRingNet(n, o), s) && dst < n && dst != o
    requires pid >= 0 && pid != l.own.pid && Mirrors(ForPid(l.pending, pid), s.pending[dst])
    ensures var l1 := AfterVote(n, dst, l, pid, vote, judgement);
      var s1 := N.OnVote(V.SkipRingNet(n, o), s, src, dst, k, vote, judgement);
      && Mirrors(ForPid(l1.pending, pid), s1.pending[dst]) && l1.own == l.own
      && l1.outbox == l.outbox + sends
      && s1.chan == Carry(s.chan, dst, sends, if s.pending[dst] == [] then k else s.pending[dst][0].round)
  {
    sends := [];
    ForPidNone(l.pending, pid);
    var i := First(l.pending, pid);
    if i < |l.pending| {
      var e := Merged(l.pending[i], vote);
      MergeMirrors(l.pending, s.pending[dst], pid, vote);
      if e.recved == e.needed {
        sends := [Sent(e.from, Frame(VOTE, pid, e.vote))];
        CarryOne(s.chan, dst, sends[0], s.pending[dst][0].round);
      }
    }
  }

  /** _iar_vote_handler at the starter. */
  lemma OwnVoteRefines(
      n: nat, o: nat, s: N.State, l: Local, src: nat, pid: int, k: nat, vote: bool, judgement: bool)
      returns (sends: seq<Sent>)
    requires n >= 2 && o < n && N.Sized(V.SkipRingNet(n, o), s)
    requires l.own.pid == pid && OwnMirrors(l.own, s.own)
    ensures var l1 := AfterVote(n, o, l, pid, vote, judgement);
      var s1 := N.OnVote(V.SkipRingNet(n, o), s, src, o, k, vote, judgement);
      && OwnMirrors(l1.own, s1.own) && l1.own.pid == pid && l1.pending == l.pending
      && l1.outbox == l.outbox + sends && s1.chan == Carry(s.chan, o, sends, s.round)
  {
    var own := l.own.(recved := l.own.recved + 1, vote := l.own.vote && vote);
    sends := [];
    if own.recved == own.needed {
      var to, f := Initial(n, o), Frame(DECISION, pid, own.vote && judgement);
      InitialSends(n, o);
      CarryAll(s.chan, o, to, f, s.round);
      sends := ToAll(to, f);
    }
  }

  lemma DropMirrors(q: seq<PropState>, es: seq<N.Entry>, pid: int)
    requires Mirrors(ForPid(q, pid), es)
    ensures es == [] <==> First(q, pid) == |q|
    ensures es != [] ==> Mirrors(ForPid(Remove(q, First(q, pid)), pid), es[1..])
  {
    ForPidNone(q, pid);
    if First(q, pid) < |q| {
      FirstOfShare(q, pid);
      assert ForPid(Remove(q, First(q, pid)), pid) == ForPid(q, pid)[1..];
    }
  }

  /** _iar_decision_handler and the forward after it. */
  lemma DecisionRefines(n: nat, o: nat, s: N.State, l: Local, dst: nat, pid: int, k: nat, vote: bool)
      returns (sends: seq<Sent>)
    requires n >= 2 && o < n && N.Sized(V.SkipRingNet(n, o), s) && dst < n && dst != o
    requires pid >= 0 && Mirrors(ForPid(l.pending, pid), s.pending[dst])
    ensures var src := Parent(n, o, dst);
      var l1 := AfterDecision(n, dst, l, o, src, pid, vote);
      var s1 := N.OnDecision(V.SkipRingNet(n, o), s, src, dst, k, vote);
      && Mirrors(ForPid(l1.pending, pid), s1.pending[dst]) && l1.own == l.own
      && l1.outbox == l.outbox + sends && s1.chan == Carry(s.chan, dst, sends, k)
  {
    var src := Parent(n, o, dst);
    var to, f := Forwards(n, dst, o, src), Frame(DECISION, pid, vote);
    ForwardSends(n, o, dst);
    CarryAll(s.chan, dst, to, f, k);
    sends := ToAll(to, f);
    DropMirrors(l.pending, s.pending[dst], pid);
  }
}
