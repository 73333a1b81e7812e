/** Closing a file.  Every rank broadcasts one FILE_CLOSE and leaves only when it has executed as
    many as there are ranks.  The ranks share the broadcast network; each has its own manager. */
module CloseBarrier {
  import opened Common
  import opened Proposals
  import L = Ledger
  import B = Broadcast
  import M = Metadata
  import opened SpanningTree

  /** The operation code of a close. */
  const FILE_CLOSE := 0

  predicate IsClose(p: Proposal) {
    p.opType == FILE_CLOSE
  }

  /** `ops[id]` is what broadcast `id` carries, `inbox[r]` what rank `r` has received and not yet
      checked out, `closers` who has submitted a close. */
  datatype System = System(
    net: B.State, ops: seq<Proposal>, inbox: seq<seq<nat>>, mgrs: seq<L.Mgr>, closers: set<nat>)

  datatype Action =
    | Submit(rank: nat, p: Proposal)
    | Deliver(packet: B.Packet)
    | CheckOut(rank: nat, i: nat)
    | Local(rank: nat, event: L.Event)

  function Start(n: nat): System {
    System(B.Init(n), [], seq(n, r => []), seq(n, r => L.Mgr([], [], [])), {})
  }

  predicate WellSized(x: System) {
    B.WellSized(x.net) && |x.inbox| == |x.mgrs| == x.net.n && |x.ops| == |x.net.origins|
      && forall r, i | 0 <= r < |x.inbox| && 0 <= i < |x.inbox[r]| :: x.inbox[r][i] < |x.ops|
  }

  /** Each rank submits at most one close. */
  predicate Enabled(x: System, a: Action) {
    WellSized(x) &&
    match a
    case Submit(r, p) => B.Enabled(x.net, B.Initiate(r)) && (IsClose(p) ==> r !in x.closers)
    case Deliver(packet) => B.Enabled(x.net, B.Deliver(packet))
    case CheckOut(r, i) => r < x.net.n && i < |x.inbox[r]|
    case Local(r, e) => r < x.net.n && !e.CheckOut? && L.Ready(x.mgrs[r], e)
  }

  ghost function Into(x: System, r: nat, window: nat, p: Proposal): seq<L.Mgr>
    requires r < |x.mgrs|
  {
    x.mgrs[r := L.Step(x.mgrs[r], window, L.CheckOut([p]))]
  }

  ghost function Apply(x: System, window: nat, a: Action): System
    requires Enabled(x, a)
  {
    match a
    case Submit(r, p) =>
      x.(net := B.Apply(x.net, B.Initiate(r)), ops := x.ops + [p],
         mgrs := Into(x, r, window, M.OwnCopy(p, p.state)),
         closers := if IsClose(p) then x.closers + {r} else x.closers)
    case Deliver(packet) =>
      x.(net := B.Apply(x.net, B.Deliver(packet)),
         inbox := x.inbox[packet.dst := x.inbox[packet.dst] + [packet.id]])
    case CheckOut(r, i) =>
      x.(inbox := x.inbox[r := RemoveAt(x.inbox[r], i)],
         mgrs := Into(x, r, window, x.ops[x.inbox[r][i]]))
    case Local(r, e) =>
      x.(mgrs := x.mgrs[r := L.Step(x.mgrs[r], window, e)])
  }

  // ---- counting closes ----

  function Closes(s: seq<Proposal>): nat {
    if s == [] then 0 else Closes(s[..|s| - 1]) + if IsClose(s[|s| - 1]) then 1 else 0
  }

  lemma {:induction false} ClosesConcat(a: seq<Proposal>, b: seq<Proposal>)
    ensures Closes(a + b) == Closes(a) + Closes(b)
  {
    if b == [] {
      assert a + b == a;
    } else {
      assert (a + b)[..|a + b| - 1] == a + b[..|b| - 1];
      ClosesConcat(a, b[..|b| - 1]);
    }
  }

  lemma ClosesJoined(front: seq<Proposal>, x: seq<Proposal>, back: seq<Proposal>)
    ensures Closes(front + x + back) == Closes(front + back) + Closes(x)
  {
    ClosesConcat(front + x, back);
    ClosesConcat(front, x);
    ClosesConcat(front, back);
  }

  lemma ClosesRemove(s: seq<Proposal>, k: nat)
    requires k < |s|
    ensures Closes(s) == Closes(RemoveAt(s, k)) + Closes([s[k]])
  {
    RemoveAtParts(s, k);
    ClosesJoined(s[..k], [s[k]], s[k + 1..]);
  }

  lemma {:induction false} ClosesPermuted(a: seq<Proposal>, b: seq<Proposal>)
    requires multiset(a) == multiset(b)
    ensures Closes(a) == Closes(b)
    decreases |a|
  {
    if a == [] {
      assert |multiset(b)| == 0;
    } else {
      var k := SameElsewhere(a, b);
      ClosesRemove(a, 0);
      ClosesRemove(b, k);
      ClosesPermuted(RemoveAt(a, 0), RemoveAt(b, k));
    }
  }

  lemma SameElsewhere(a: seq<Proposal>, b: seq<Proposal>) returns (k: nat)
    requires a != [] && multiset(a) == multiset(b)
    ensures k < |b| && b[k] == a[0] && multiset(RemoveAt(a, 0)) == multiset(RemoveAt(b, k))
  {
    MemberByMultiset(a, b, a[0]);
    k :| 0 <= k < |b| && b[k] == a[0];
    RemoveAtMultiset(a, 0);
    RemoveAtMultiset(b, k);
    Cancel(multiset(RemoveAt(a, 0)), multiset(RemoveAt(b, k)), multiset{a[0]});
  }

  lemma Cancel(a: multiset<Proposal>, b: multiset<Proposal>, x: multiset<Proposal>)
    requires a + x == b + x
    ensures a == b
  {
    assert a == a + x - x;
  }

  /** Closes anywhere in the manager. */
  function Held(m: L.Mgr): nat {
    Closes(m.ledger + m.exec + m.executed)
  }

  lemma HeldSums(m: L.Mgr)
    ensures Held(m) == Closes(m.ledger) + Closes(m.exec) + Closes(m.executed)
  {
    ClosesConcat(m.ledger + m.exec, m.executed);
    ClosesConcat(m.ledger, m.exec);
  }

  lemma LocalKeepsHeld(m: L.Mgr, window: nat, e: L.Event)
    requires !e.CheckOut? && L.Ready(m, e)
    ensures Held(L.Step(m, window, e)) == Held(m)
  {
    L.StepConserves(m, window, e);
    var m1 := L.Step(m, window, e);
    assert multiset(m.ledger + m.exec + m.executed) == L.Holdings(m);
    assert multiset(m1.ledger + m1.exec + m1.executed) == L.Holdings(m1);
    ClosesPermuted(m.ledger + m.exec + m.executed, m1.ledger + m1.exec + m1.executed);
  }

  lemma CheckOutHolds(m: L.Mgr, window: nat, p: Proposal)
    ensures Held(L.Step(m, window, L.CheckOut([p]))) == Held(m) + if IsClose(p) then 1 else 0
  {
    HeldSums(m);
    HeldSums(L.Step(m, window, L.CheckOut([p])));
    ClosesConcat(m.ledger, [p]);
    OneClose(p);
  }

  /** Closes among the received and not yet checked out. */
  function Waiting(ops: seq<Proposal>, box: seq<nat>): nat
    requires forall i | 0 <= i < |box| :: box[i] < |ops|
  {
    Closes(Contents(ops, box))
  }

  function Contents(ops: seq<Proposal>, box: seq<nat>): seq<Proposal>
    requires forall i | 0 <= i < |box| :: box[i] < |ops|
  {
    seq(|box|, i requires 0 <= i < |box| => ops[box[i]])
  }

  /** Closes among the first `k` broadcasts that have reached rank `r`. */
  function Heard(x: System, r: nat, k: nat): nat
    requires k <= |x.ops| && |x.ops| == |x.net.origins|
  {
    if k == 0 then 0
    else Heard(x, r, k - 1) + if B.Heard(x.net, k - 1, r) && IsClose(x.ops[k - 1]) then 1 else 0
  }

  lemma {:induction false} HeardSame(x: System, y: System, r: nat, k: nat)
    requires |x.ops| == |x.net.origins| && |y.ops| == |y.net.origins|
    requires k <= |x.ops| && k <= |y.ops|
    requires forall id: nat | id < k ::
      x.ops[id] == y.ops[id] && (B.Heard(x.net, id, r) <==> B.Heard(y.net, id, r))
    ensures Heard(x, r, k) == Heard(y, r, k)
  {
    if k > 0 {
      HeardSame(x, y, r, k - 1);
    }
  }

  lemma {:induction false} HeardOneMore(x: System, y: System, r: nat, id0: nat, k: nat)
    requires |x.ops| == |x.net.origins| && |y.ops| == |y.net.origins| && x.ops == y.ops
    requires id0 < k <= |x.ops| && k <= |y.ops|
    requires !B.Heard(x.net, id0, r) && B.Heard(y.net, id0, r)
    requires forall id: nat | id < k && id != id0 :: B.Heard(x.net, id, r) <==> B.Heard(y.net, id, r)
    ensures Heard(y, r, k) == Heard(x, r, k) + if IsClose(x.ops[id0]) then 1 else 0
  {
    if k - 1 == id0 {
      HeardSame(x, y, r, k - 1);
    } else {
      HeardOneMore(x, y, r, id0, k - 1);
    }
  }

  /** A rank hears at most the closes there are, and all of them once it has heard everything. */
  lemma {:induction false} HeardBound(x: System, r: nat, k: nat)
    requires |x.ops| == |x.net.origins| && k <= |x.ops|
    ensures Heard(x, r, k) <= Closes(x.ops[..k])
    ensures (forall id: nat | id < k :: B.Heard(x.net, id, r)) ==> Heard(x, r, k) == Closes(x.ops[..k])
  {
    if k > 0 {
      HeardBound(x, r, k - 1);
      assert x.ops[..k][..k - 1] == x.ops[..k - 1];
    }
  }

  // ---- the invariant ----

  /** At rank `r`, every close heard is in the inbox or with the manager, once. */
  ghost predicate Balanced(x: System, r: nat)
    requires WellSized(x) && r < x.net.n
  {
    Held(x.mgrs[r]) + Waiting(x.ops, x.inbox[r]) == Heard(x, r, |x.ops|)
  }

  ghost predicate Inv(x: System) {
    && WellSized(x) && B.Inv(x.net)
    && (forall r: nat | r < x.net.n :: Balanced(x, r))
    && Closes(x.ops) == |x.closers|
    && (forall r | r in x.closers :: r < x.net.n)
  }

  lemma OneClose(p: Proposal)
    ensures Closes([p]) == if IsClose(p) then 1 else 0
  {
    assert Closes([p][..0]) == 0;
  }

  /** A new broadcast is heard by its origin only; what was heard before is unchanged. */
  lemma SubmitHeard(x: System, y: System, r: nat, p: Proposal, q: nat)
    requires |x.ops| == |x.net.origins|
    requires y.net.origins == x.net.origins + [r] && y.ops == x.ops + [p]
    requires y.net.receipts == x.net.receipts && B.Receipt(|x.ops|, q) !in x.net.receipts
    ensures Heard(y, q, |y.ops|) == Heard(x, q, |x.ops|) + if q == r && IsClose(p) then 1 else 0
  {
    HeardSame(x, y, q, |x.ops|);
    assert B.Heard(y.net, |x.ops|, q) <==> q == r;
  }

  lemma SameContents(ops: seq<Proposal>, p: Proposal, box: seq<nat>)
    requires forall i | 0 <= i < |box| :: box[i] < |ops|
    ensures Waiting(ops + [p], box) == Waiting(ops, box)
  {
    assert Contents(ops + [p], box) == Contents(ops, box);
  }

  lemma SubmitSized(x: System, window: nat, r: nat, p: Proposal)
    requires WellSized(x) && B.Inv(x.net) && Enabled(x, Submit(r, p))
    ensures var y := Apply(x, window, Submit(r, p)); WellSized(y) && B.Inv(y.net)
  {
    B.ApplyInv(x.net, B.Initiate(r));
  }

  lemma SubmitBalanced(x: System, window: nat, r: nat, p: Proposal, q: nat)
    requires Inv(x) && Enabled(x, Submit(r, p)) && q < x.net.n
    requires WellSized(Apply(x, window, Submit(r, p)))
    ensures Balanced(Apply(x, window, Submit(r, p)), q)
  {
    var y := Apply(x, window, Submit(r, p));
    assert Balanced(x, q);
    SubmitHeard(x, y, r, p, q);
    SameContents(x.ops, p, x.inbox[q]);
    CheckOutHolds(x.mgrs[r], window, M.OwnCopy(p, p.state));
  }

  lemma SubmitKeeps(x: System, window: nat, r: nat, p: Proposal)
    requires Inv(x) && Enabled(x, Submit(r, p))
    ensures Inv(Apply(x, window, Submit(r, p)))
  {
    var y := Apply(x, window, Submit(r, p));
    SubmitSized(x, window, r, p);
    forall q: nat | q < y.net.n
      ensures Balanced(y, q)
    {
      SubmitBalanced(x, window, r, p, q);
    }
    assert y.ops[..|x.ops|] == x.ops;
  }

  lemma DeliverHeard(x: System, window: nat, packet: B.Packet, q: nat)
    requires Inv(x) && Enabled(x, Deliver(packet)) && q < x.net.n
    ensures var y := Apply(x, window, Deliver(packet));
      |y.ops| == |y.net.origins| &&
      Heard(y, q, |y.ops|) ==
        Heard(x, q, |x.ops|) + if q == packet.dst && IsClose(x.ops[packet.id]) then 1 else 0
  {
    var y := Apply(x, window, Deliver(packet));
    B.DueWhenInFlight(x.net, packet);
    assert forall c: B.Receipt ::
      c in y.net.receipts <==> c in x.net.receipts || c == B.Receipt(packet.id, packet.dst);
    if q == packet.dst {
      HeardOneMore(x, y, q, packet.id, |x.ops|);
    } else {
      HeardSame(x, y, q, |x.ops|);
    }
  }

  lemma OneMoreWaiting(ops: seq<Proposal>, box: seq<nat>, id: nat)
    requires forall i | 0 <= i < |box| :: box[i] < |ops|
    requires id < |ops|
    ensures Waiting(ops, box + [id]) == Waiting(ops, box) + if IsClose(ops[id]) then 1 else 0
  {
    assert Contents(ops, box + [id]) == Contents(ops, box) + [ops[id]];
    ClosesConcat(Contents(ops, box), [ops[id]]);
    OneClose(ops[id]);
  }

  lemma DeliverSized(x: System, window: nat, packet: B.Packet)
    requires WellSized(x) && B.Inv(x.net) && Enabled(x, Deliver(packet))
    ensures var y := Apply(x, window, Deliver(packet)); WellSized(y) && B.Inv(y.net)
  {
    B.ApplyInv(x.net, B.Deliver(packet));
  }

  lemma DeliverBalanced(x: System, window: nat, packet: B.Packet, q: nat)
    requires Inv(x) && Enabled(x, Deliver(packet)) && q < x.net.n
    requires WellSized(Apply(x, window, Deliver(packet)))
    ensures Balanced(Apply(x, window, Deliver(packet)), q)
  {
    assert Balanced(x, q);
    DeliverHeard(x, window, packet, q);
    if q == packet.dst {
      OneMoreWaiting(x.ops, x.inbox[q], packet.id);
    }
  }

  lemma DeliverKeeps(x: System, window: nat, packet: B.Packet)
    requires Inv(x) && Enabled(x, Deliver(packet))
    ensures Inv(Apply(x, window, Deliver(packet)))
  {
    var y := Apply(x, window, Deliver(packet));
    DeliverSized(x, window, packet);
    forall q: nat | q < y.net.n
      ensures Balanced(y, q)
    {
      DeliverBalanced(x, window, packet, q);
    }
  }

  lemma CheckOutKeeps(x: System, window: nat, r: nat, i: nat)
    requires Inv(x) && Enabled(x, CheckOut(r, i))
    ensures Inv(Apply(x, window, CheckOut(r, i)))
  {
    var y := Apply(x, window, CheckOut(r, i));
    forall q: nat | q < y.net.n
      ensures Balanced(y, q)
    {
      assert Balanced(x, q);
      HeardSame(x, y, q, |x.ops|);
      if q == r {
        var box, p := x.inbox[r], x.ops[x.inbox[r][i]];
        assert Contents(x.ops, RemoveAt(box, i)) == RemoveAt(Contents(x.ops, box), i);
        ClosesRemove(Contents(x.ops, box), i);
        OneClose(p);
        CheckOutHolds(x.mgrs[r], window, p);
      }
    }
  }

  lemma LocalKeeps(x: System, window: nat, r: nat, e: L.Event)
    requires Inv(x) && Enabled(x, Local(r, e))
    ensures Inv(Apply(x, window, Local(r, e)))
  {
    var y := Apply(x, window, Local(r, e));
    LocalKeepsHeld(x.mgrs[r], window, e);
    forall q: nat | q < y.net.n
      ensures Balanced(y, q)
    {
      assert Balanced(x, q);
      HeardSame(x, y, q, |x.ops|);
    }
  }

  lemma ApplyKeeps(x: System, window: nat, a: Action)
    requires Inv(x) && Enabled(x, a)
    ensures Inv(Apply(x, window, a))
  {
    match a
    case Submit(r, p) => SubmitKeeps(x, window, r, p);
    case Deliver(packet) => DeliverKeeps(x, window, packet);
    case CheckOut(r, i) => CheckOutKeeps(x, window, r, i);
    case Local(r, e) => LocalKeeps(x, window, r, e);
  }

  // ---- all runs ----

  /** The system after a sequence of actions, if each was enabled in its turn. */
  ghost function Run(n: nat, window: nat, acts: seq<Action>): Option<System> {
    if acts == [] then (if n >= 2 then Some(Start(n)) else None)
    else
      match Run(n, window, acts[..|acts| - 1])
      case None => None
      case Some(x) =>
        var a := acts[|acts| - 1];
        if Enabled(x, a) then Some(Apply(x, window, a)) else None
  }

  ghost predicate Reachable(n: nat, window: nat, x: System) {
    exists acts :: Run(n, window, acts) == Some(x)
  }

  lemma StartInv(n: nat)
    requires n >= 2
    ensures Inv(Start(n))
  {
    B.InitInv(n);
    var x := Start(n);
    forall r: nat | r < n
      ensures Balanced(x, r)
    {
      assert Contents(x.ops, x.inbox[r]) == [];
    }
  }

  lemma {:induction false} RunInv(n: nat, window: nat, acts: seq<Action>)
    requires Run(n, window, acts).Some?
    ensures Inv(Run(n, window, acts).value) && Run(n, window, acts).value.net.n == n
  {
    if acts == [] {
      StartInv(n);
    } else {
      var before := acts[..|acts| - 1];
      RunInv(n, window, before);
      ApplyKeeps(Run(n, window, before).value, window, acts[|acts| - 1]);
    }
  }

  lemma ReachableInv(n: nat, window: nat, x: System)
    requires Reachable(n, window, x)
    ensures Inv(x) && x.net.n == n
  {
    var acts :| Run(n, window, acts) == Some(x);
    RunInv(n, window, acts);
  }

  // ---- main results ----

  /** The number of closes a rank has executed: what the close loop polls. */
  function CloseCount(x: System, r: nat): nat
    requires r < |x.mgrs|
  {
    Closes(x.mgrs[r].executed)
  }

  lemma FullSubset(a: set<nat>, b: set<nat>)
    requires a <= b && |a| >= |b|
    ensures a == b
  {
    assert b == a + (b - a);
    assert b - a == {};
  }

  /** No rank ever counts more closes than there are ranks that have submitted one. */
  lemma CountsOnlySubmitters(n: nat, window: nat, x: System, r: nat)
    requires Reachable(n, window, x) && r < n
    ensures r < |x.mgrs| && CloseCount(x, r) <= |x.closers| <= n
  {
    ReachableInv(n, window, x);
    assert Balanced(x, r);
    HeldSums(x.mgrs[r]);
    HeardBound(x, r, |x.ops|);
    assert x.ops[..|x.ops|] == x.ops;
    RanksSize(n);
    Subset(x.closers, Ranks(n));
  }

  lemma {:induction false} Subset(a: set<nat>, b: set<nat>)
    requires a <= b
    ensures |a| <= |b|
  {
    assert b == a + (b - a);
  }

  /** The barrier: whoever leaves the close loop knows that every rank has submitted its close. */
  lemma NobodyClosesEarly(n: nat, window: nat, x: System, r: nat)
    requires Reachable(n, window, x) && r < n && r < |x.mgrs| && CloseCount(x, r) >= n
    ensures forall q: nat | q < n :: q in x.closers
  {
    ReachableInv(n, window, x);
    CountsOnlySubmitters(n, window, x, r);
    RanksSize(n);
    FullSubset(x.closers, Ranks(n));
  }

  /** The barrier opens: once all have submitted, nothing is on its way, and the rank has checked
      out and executed what it received, it leaves. */
  lemma BarrierOpens(n: nat, window: nat, x: System, r: nat)
    requires Reachable(n, window, x) && r < n && x.net.flight == multiset{}
    requires forall q: nat | q < n :: q in x.closers
    requires r < |x.mgrs| && r < |x.inbox|
    requires x.inbox[r] == [] && x.mgrs[r].ledger == [] && x.mgrs[r].exec == []
    ensures CloseCount(x, r) == n
  {
    ReachableInv(n, window, x);
    assert Balanced(x, r);
    HeldSums(x.mgrs[r]);
    forall id: nat | id < |x.ops|
      ensures B.Heard(x.net, id, r)
    {
      B.DrainedHeard(x.net, id, r);
    }
    HeardBound(x, r, |x.ops|);
    assert x.ops[..|x.ops|] == x.ops && Contents(x.ops, x.inbox[r]) == [];
    RanksSize(n);
    assert x.closers == Ranks(n);
  }
}
