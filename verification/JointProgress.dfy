/** With all starters at work the channels still run empty: every delivery belongs to one starter's
    run, and each of those is bounded. */
module JointProgress {
  import opened Common
  import opened Handlers
  import opened Joint
  import N = VotingNet
  import P = VotingProgress
  import V = Voting

  function Receives(acts: seq<Action>): nat {
    if acts == [] then 0 else Receives(acts[..|acts| - 1]) + if acts[|acts| - 1].Recv? then 1 else 0
  }

  function Submits(acts: seq<Action>): nat {
    if acts == [] then 0 else Submits(acts[..|acts| - 1]) + if acts[|acts| - 1].Submit? then 1 else 0
  }

  lemma OneMoreAction(acts: seq<Action>, a: Action)
    ensures Receives(acts + [a]) == Receives(acts) + if a.Recv? then 1 else 0
    ensures Submits(acts + [a]) == Submits(acts) + if a.Submit? then 1 else 0
  {
    assert (acts + [a])[..|acts|] == acts;
  }

  /** How many deliveries and submissions each starter sees. */
  function Deliveries(n: nat, pids: seq<int>, acts: seq<Action>): seq<nat>
    requires GoodIds(n, pids) && Run(n, pids, acts).Some?
  {
    seq(n, o requires 0 <= o < n => P.Receives(Projection(n, pids, acts, o)))
  }

  function Starts(n: nat, pids: seq<int>, acts: seq<Action>): seq<nat>
    requires GoodIds(n, pids) && Run(n, pids, acts).Some?
  {
    seq(n, o requires 0 <= o < n => P.Submits(Projection(n, pids, acts, o)))
  }

  /** Exactly one starter sees the action. */
  predicate SeenBy(n: nat, pids: seq<int>, x: System, a: Action, owner: nat)
    requires GoodIds(n, pids) && Enabled(n, x, a)
  {
    owner < n && forall o: nat | o < n :: Seen(n, pids, x, a, o) != [] <==> o == owner
  }

  lemma SomebodySees(n: nat, pids: seq<int>, x: System, a: Action) returns (owner: nat)
    requires GoodIds(n, pids) && Tidy(n, pids, x) && Enabled(n, x, a)
    ensures SeenBy(n, pids, x, a, owner)
  {
    match a
    case Submit(r) => owner := r;
    case Recv(src, dst, _) =>
      var p := x.pipes[(src, dst)].Head();
      assert Labelled(n, pids, x.pipes[(src, dst)].sent) && LabelledAs(n, pids, p);
      owner :| owner < n && pids[owner] == p.frame.pid;
  }

  lemma SeenIsCounted(n: nat, pids: seq<int>, x: System, a: Action, o: nat, before: seq<N.Action>)
    requires GoodIds(n, pids) && Enabled(n, x, a) && o < n
    ensures var seen := Seen(n, pids, x, a, o);
      && P.Receives(before + seen) == P.Receives(before) + (if a.Recv? && seen != [] then 1 else 0)
      && P.Submits(before + seen) == P.Submits(before) + (if a.Submit? && seen != [] then 1 else 0)
  {
    var seen := Seen(n, pids, x, a, o);
    if seen == [] {
      assert before + seen == before;
    } else {
      P.OneMoreAction(before, seen[0]);
    }
  }

  lemma ShareGrows(
      n: nat, pids: seq<int>, acts: seq<Action>, x: System, a: Action, later: seq<Action>, owner: nat, o: nat)
    requires GoodIds(n, pids) && Run(n, pids, acts) == Some(x) && Enabled(n, x, a) && o < n
    requires later == acts + [a] && Run(n, pids, later).Some? && SeenBy(n, pids, x, a, owner)
    ensures P.Receives(Projection(n, pids, later, o))
      == P.Receives(Projection(n, pids, acts, o)) + if a.Recv? && owner == o then 1 else 0
    ensures P.Submits(Projection(n, pids, later, o))
      == P.Submits(Projection(n, pids, acts, o)) + if a.Submit? && owner == o then 1 else 0
  {
    OneMoreProjected(n, pids, acts, x, a, o);
    SeenIsCounted(n, pids, x, a, o, Projection(n, pids, acts, o));
  }

  lemma OneMoreSeen(
      n: nat, pids: seq<int>, acts: seq<Action>, x: System, a: Action, later: seq<Action>, owner: nat)
    requires GoodIds(n, pids) && Run(n, pids, acts) == Some(x) && Enabled(n, x, a)
    requires later == acts + [a] && Run(n, pids, later).Some? && SeenBy(n, pids, x, a, owner)
    ensures Sum(Deliveries(n, pids, later)) == Sum(Deliveries(n, pids, acts)) + if a.Recv? then 1 else 0
    ensures Sum(Starts(n, pids, later)) == Sum(Starts(n, pids, acts)) + if a.Submit? then 1 else 0
  {
    forall o | 0 <= o < n
      ensures Deliveries(n, pids, later)[o]
        == Deliveries(n, pids, acts)[o] + if a.Recv? && o == owner then 1 else 0
      ensures Starts(n, pids, later)[o]
        == Starts(n, pids, acts)[o] + if a.Submit? && o == owner then 1 else 0
    {
      ShareGrows(n, pids, acts, x, a, later, owner, o);
    }
    SumMore(Deliveries(n, pids, acts), Deliveries(n, pids, later), owner, a.Recv?);
    SumMore(Starts(n, pids, acts), Starts(n, pids, later), owner, a.Submit?);
  }

  lemma OneMoreRun(n: nat, pids: seq<int>, acts: seq<Action>, x: System, a: Action)
    requires GoodIds(n, pids) && Run(n, pids, acts) == Some(x) && Enabled(n, x, a)
    ensures Run(n, pids, acts + [a]) == Some(Apply(n, pids, x, a))
  {
    assert (acts + [a])[..|acts|] == acts;
  }

  lemma OneMoreProjected(n: nat, pids: seq<int>, acts: seq<Action>, x: System, a: Action, o: nat)
    requires GoodIds(n, pids) && Run(n, pids, acts) == Some(x) && Enabled(n, x, a) && o < n
    requires Run(n, pids, acts + [a]).Some?
    ensures Projection(n, pids, acts + [a], o) == Projection(n, pids, acts, o) + Seen(n, pids, x, a, o)
  {
    assert (acts + [a])[..|acts|] == acts;
  }

  lemma NothingSeen(n: nat, pids: seq<int>)
    requires GoodIds(n, pids)
    ensures Deliveries(n, pids, []) == Repeat<nat>(0, n) && Starts(n, pids, []) == Repeat<nat>(0, n)
  {
  }

  /** The starters' shares add up to the whole run. */
  lemma {:induction false} SharesAddUp(n: nat, pids: seq<int>, acts: seq<Action>)
    requires GoodIds(n, pids) && Run(n, pids, acts).Some?
    ensures Sum(Deliveries(n, pids, acts)) == Receives(acts)
    ensures Sum(Starts(n, pids, acts)) == Submits(acts)
  {
    if acts == [] {
      NothingSeen(n, pids);
      SumZeros(n);
    } else {
      var front, a := acts[..|acts| - 1], acts[|acts| - 1];
      assert acts == front + [a];
      var x := Run(n, pids, front).value;
      SharesAddUp(n, pids, front);
      RunTidy(n, pids, front);
      var owner := SomebodySees(n, pids, x, a);
      OneMoreSeen(n, pids, front, x, a, acts, owner);
    }
  }

  lemma ShareBounded(n: nat, pids: seq<int>, acts: seq<Action>, o: nat)
    requires GoodIds(n, pids) && Run(n, pids, acts).Some? && o < n
    ensures var seen := Projection(n, pids, acts, o); P.Receives(seen) <= 3 * (n - 1) * P.Submits(seen)
  {
    var s := ProjectionIsRun(n, pids, acts, o);
    P.ReceivesBounded(n, o, Projection(n, pids, acts, o));
  }

  /** However many starters are at work, a run with `k` submissions delivers at most `3(n - 1)k`
      messages, so without further submissions every run ends. */
  lemma ReceivesBounded(n: nat, pids: seq<int>, acts: seq<Action>)
    requires GoodIds(n, pids) && Run(n, pids, acts).Some?
    ensures Receives(acts) <= 3 * (n - 1) * Submits(acts)
  {
    SharesAddUp(n, pids, acts);
    forall o | 0 <= o < n
      ensures Deliveries(n, pids, acts)[o] <= 3 * (n - 1) * Starts(n, pids, acts)[o]
    {
      ShareBounded(n, pids, acts, o);
    }
    SumScaled(Deliveries(n, pids, acts), Starts(n, pids, acts), 3 * (n - 1));
  }

  ghost predicate OnlyReceives(acts: seq<Action>) {
    forall a | a in acts :: a.Recv?
  }

  lemma SomePacket(n: nat, x: System) returns (a: Action)
    requires Sized(n, x) && !Drained(n, x)
    ensures a.Recv? && Enabled(n, x, a)
  {
    var r: nat, t: nat :| r < n && t < n && (r, t) in x.pipes && x.pipes[(r, t)].Waiting();
    a := Recv(r, t, true);
  }

  lemma Regroup(before: seq<Action>, a: Action, after: seq<Action>)
    ensures before + ([a] + after) == before + [a] + after
  {
  }

  lemma NothingMore(acts: seq<Action>)
    ensures acts + [] == acts
  {
  }

  lemma {:induction false} Drains(n: nat, pids: seq<int>, acts: seq<Action>)
      returns (more: seq<Action>, x: System)
    requires GoodIds(n, pids) && Run(n, pids, acts).Some?
    ensures OnlyReceives(more) && Run(n, pids, acts + more) == Some(x) && Drained(n, x)
    decreases 3 * (n - 1) * Submits(acts) - Receives(acts)
  {
    x := Run(n, pids, acts).value;
    if Drained(n, x) {
      more := [];
      NothingMore(acts);
    } else {
      RunTidy(n, pids, acts);
      var a := SomePacket(n, x);
      OneMoreRun(n, pids, acts, x, a);
      OneMoreAction(acts, a);
      ReceivesBounded(n, pids, acts + [a]);
      var rest;
      rest, x := Drains(n, pids, acts + [a]);
      more := [a] + rest;
      Regroup(acts, a, rest);
    }
  }

  /** Every run of all starters can be brought to rest by deliveries alone; then whoever has submitted
      has decided, and nobody's proposal is pending anywhere. */
  lemma CanDrain(n: nat, pids: seq<int>, acts: seq<Action>) returns (more: seq<Action>, x: System)
    requires GoodIds(n, pids) && Run(n, pids, acts).Some?
    ensures OnlyReceives(more) && Run(n, pids, acts + more) == Some(x) && Drained(n, x)
    ensures |x.locals| == n
    ensures forall o | 0 <= o < n :: x.locals[o].own.pid == -1 || x.locals[o].own.decided
    ensures forall o, t | 0 <= o < n && 0 <= t < n :: ForPid(x.locals[t].pending, pids[o]) == []
  {
    more, x := Drains(n, pids, acts);
    NobodyIsStuck(n, pids, acts + more, 0);
    forall o | 0 <= o < n
      ensures x.locals[o].own.pid == -1 || x.locals[o].own.decided
    {
      NobodyIsStuck(n, pids, acts + more, o);
    }
    forall o, t | 0 <= o < n && 0 <= t < n
      ensures ForPid(x.locals[t].pending, pids[o]) == []
    {
      NothingStaysPending(n, pids, acts + more, o, t);
    }
  }
}
