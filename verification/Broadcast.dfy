/** Any number of concurrent broadcasts (tags BCAST and DECISION) on the skip ring, in every
    interleaving of initiations, deliveries and entries into the cleanup phase.  The network
    is an unordered bag of packets. */
module Broadcast {
  import opened Common
  import opened SkipRing

  /** One message of broadcast `id` on its way. */
  datatype Packet = Packet(id: nat, src: nat, dst: nat)

  /** A rank having received broadcast `id`. */
  datatype Receipt = Receipt(id: nat, rank: nat)

  datatype Action =
    | Initiate(origin: nat)
    | Deliver(packet: Packet)
    | Enter(rank: nat)

  /** `sent` and `recved` are the per-rank counters of the engine; `contrib` is what each rank
      in `entered` has handed to the all-reduce of its cleanup.  `late` records how many broadcasts
      each rank has started after that; no rank reads it. */
  datatype State = State(
    n: nat,
    origins: seq<nat>,
    flight: multiset<Packet>,
    receipts: multiset<Receipt>,
    sent: seq<nat>,
    recved: seq<nat>,
    entered: set<nat>,
    contrib: seq<nat>,
    late: seq<nat>)

  function Init(n: nat): State {
    State(n, [], multiset{}, multiset{}, Repeat<nat>(0, n), Repeat<nat>(0, n), {}, Repeat<nat>(0, n),
          Repeat<nat>(0, n))
  }

  function Packets(id: nat, src: nat, to: seq<nat>): multiset<Packet> {
    if to == [] then multiset{}
    else multiset{Packet(id, src, to[0])} + Packets(id, src, to[1..])
  }

  predicate WellSized(s: State) {
    s.n >= 2 && |s.sent| == |s.recved| == |s.contrib| == |s.late| == s.n
  }

  /** Any rank may start a broadcast at any time, also during its cleanup: there the last vote for
      its proposal makes it broadcast a decision. */
  predicate Enabled(s: State, a: Action) {
    WellSized(s) &&
    match a
    case Initiate(o) => o < s.n
    case Deliver(p) => p in s.flight && p.id < |s.origins| && p.dst < s.n
    case Enter(r) => r < s.n && r !in s.entered
  }

  /** Sends follow RLO_bcast_gen at the origin and _bc_forward everywhere else. */
  function Apply(s: State, a: Action): State
    requires WellSized(s)
    requires a.Initiate? ==> a.origin < s.n
    requires a.Deliver? ==> a.packet.id < |s.origins| && a.packet.dst < s.n
    requires a.Enter? ==> a.rank < s.n
  {
    match a
    case Initiate(o) =>
      s.(origins := s.origins + [o],
         flight := s.flight + Packets(|s.origins|, o, Initial(s.n, o)),
         sent := s.sent[o := s.sent[o] + 1],
         late := if o in s.entered then s.late[o := s.late[o] + 1] else s.late)
    case Deliver(p) =>
      s.(flight := s.flight - multiset{p} + Packets(p.id, p.dst, Forwards(s.n, p.dst, s.origins[p.id], p.src)),
         receipts := s.receipts + multiset{Receipt(p.id, p.dst)},
         recved := s.recved[p.dst := s.recved[p.dst] + 1])
    case Enter(r) =>
      s.(entered := s.entered + {r}, contrib := s.contrib[r := s.sent[r]])
  }

  /** The state after a sequence of actions, if each was enabled in its turn. */
  function Run(n: nat, acts: seq<Action>): Option<State> {
    if acts == [] then (if n >= 2 then Some(Init(n)) else None)
    else
      match Run(n, acts[..|acts| - 1])
      case None => None
      case Some(s) =>
        var a := acts[|acts| - 1];
        if Enabled(s, a) then Some(Apply(s, a)) else None
  }

  /** What the all-reduce returns once every rank has entered. */
  function Total(s: State): nat {
    Sum(s.contrib)
  }

  /** The exit condition of the cleanup wait loop at rank `r`. */
  predicate MayLeave(s: State, r: nat)
    requires WellSized(s) && r < s.n
  {
    s.recved[r] + s.sent[r] >= Total(s)
  }

  // ---------------------------------------------------------------- the invariant

  /** The broadcast has reached rank `r`: it started there or was delivered there. */
  predicate Heard(s: State, id: nat, r: nat)
    requires id < |s.origins|
  {
    s.origins[id] == r || Receipt(id, r) in s.receipts
  }

  /** The packet is the tree edge into a rank still waiting, out of one that has heard. */
  ghost predicate Due(s: State, p: Packet) {
    && p.id < |s.origins|
    && s.origins[p.id] < s.n
    && IsChild(s.n, s.origins[p.id], p.src, p.dst)
    && Heard(s, p.id, p.src)
    && Receipt(p.id, p.dst) !in s.receipts
  }

  ghost predicate FlightIsDue(s: State) {
    forall p: Packet :: s.flight[p] == if Due(s, p) then 1 else 0
  }

  ghost predicate ReceiptsOnce(s: State) {
    && (forall q: Receipt :: s.receipts[q] <= 1)
    && forall q: Receipt | q in s.receipts ::
        && q.id < |s.origins| && s.origins[q.id] < s.n && q.rank < s.n && q.rank != s.origins[q.id]
        && Heard(s, q.id, Parent(s.n, s.origins[q.id], q.rank))
  }

  /** How many of the first `k` broadcasts have reached `r`. */
  function HeardCount(s: State, r: nat, k: nat): nat
    requires k <= |s.origins|
  {
    if k == 0 then 0 else HeardCount(s, r, k - 1) + if Heard(s, k - 1, r) then 1 else 0
  }

  ghost predicate Counted(s: State)
    requires WellSized(s)
  {
    && (forall r: nat | r < s.n :: s.recved[r] + s.sent[r] == HeardCount(s, r, |s.origins|))
    && Sum(s.sent) == |s.origins|
    && Contributed(s)
  }

  /** A rank has contributed what it sent before entering. */
  ghost predicate Contributed(s: State)
    requires WellSized(s)
  {
    && (forall r: nat | r < s.n && r in s.entered :: s.contrib[r] + s.late[r] == s.sent[r])
    && (forall r: nat | r < s.n && r !in s.entered :: s.late[r] == 0)
  }

  ghost predicate Inv(s: State) {
    && WellSized(s)
    && (forall id: nat | id < |s.origins| :: s.origins[id] < s.n)
    && FlightIsDue(s)
    && ReceiptsOnce(s)
    && Counted(s)
  }

  lemma {:induction false} PacketsOnce(id: nat, src: nat, to: seq<nat>, p: Packet)
    requires forall i, j | 0 <= i < j < |to| :: to[i] != to[j]
    ensures Packets(id, src, to)[p] == if p.id == id && p.src == src && p.dst in to then 1 else 0
  {
    if to != [] {
      PacketsOnce(id, src, to[1..], p);
    }
  }

  /** Hearing is unchanged for `r` on all but at most one new broadcast or receipt. */
  lemma {:induction false} HeardCountSame(s: State, t: State, r: nat, k: nat)
    requires k <= |s.origins| && k <= |t.origins|
    requires forall id: nat | id < k :: Heard(s, id, r) <==> Heard(t, id, r)
    ensures HeardCount(s, r, k) == HeardCount(t, r, k)
  {
    if k > 0 {
      HeardCountSame(s, t, r, k - 1);
    }
  }

  lemma {:induction false} HeardCountOneMore(s: State, t: State, r: nat, id0: nat, k: nat)
    requires id0 < k <= |s.origins| && k <= |t.origins|
    requires !Heard(s, id0, r) && Heard(t, id0, r)
    requires forall id: nat | id < k && id != id0 :: Heard(s, id, r) <==> Heard(t, id, r)
    ensures HeardCount(t, r, k) == HeardCount(s, r, k) + 1
  {
    if k - 1 == id0 {
      HeardCountSame(s, t, r, k - 1);
    } else {
      HeardCountOneMore(s, t, r, id0, k - 1);
    }
  }

  lemma {:induction false} HeardCountBound(s: State, r: nat, k: nat)
    requires k <= |s.origins|
    ensures HeardCount(s, r, k) <= k
    ensures HeardCount(s, r, k) == k <==> forall id: nat | id < k :: Heard(s, id, r)
  {
    if k > 0 {
      HeardCountBound(s, r, k - 1);
    }
  }

  lemma InitiateFlight(s: State, o: nat)
    requires Inv(s) && Enabled(s, Initiate(o))
    ensures FlightIsDue(Apply(s, Initiate(o)))
  {
    var t := Apply(s, Initiate(o));
    var id := |s.origins|;
    InitialSends(s.n, o);
    var to := Initial(s.n, o);
    assert t.flight == s.flight + Packets(id, o, to);
    forall p: Packet
      ensures t.flight[p] == if Due(t, p) then 1 else 0
    {
      PacketsOnce(id, o, to, p);
      assert Receipt(id, p.src) !in s.receipts && Receipt(id, p.dst) !in s.receipts;
      assert p.id != id ==> (Due(s, p) <==> Due(t, p));
    }
  }

  lemma InitiateHeard(s: State, o: nat, r: nat)
    requires WellSized(s) && o < s.n && Receipt(|s.origins|, r) !in s.receipts
    ensures var t := Apply(s, Initiate(o));
      HeardCount(t, r, |t.origins|) == HeardCount(s, r, |s.origins|) + if r == o then 1 else 0
  {
    var t := Apply(s, Initiate(o));
    HeardCountSame(s, t, r, |s.origins|);
    assert Heard(t, |s.origins|, r) <==> r == o;
  }

  lemma InitiateSum(s: State, o: nat)
    requires WellSized(s) && o < s.n && Sum(s.sent) == |s.origins|
    ensures var t := Apply(s, Initiate(o)); Sum(t.sent) == |t.origins|
  {
    SumUpdate(s.sent, o, s.sent[o] + 1);
  }

  lemma InitiateCounts(s: State, o: nat)
    requires WellSized(s) && o < s.n && Counted(s)
    requires forall r: nat | r < s.n :: Receipt(|s.origins|, r) !in s.receipts
    ensures Counted(Apply(s, Initiate(o)))
  {
    InitiateSum(s, o);
    var t := Apply(s, Initiate(o));
    forall r: nat | r < s.n
      ensures t.recved[r] + t.sent[r] == HeardCount(t, r, |t.origins|)
    {
      InitiateHeard(s, o, r);
    }
  }

  lemma InitiateReceipts(s: State, o: nat)
    requires Inv(s) && Enabled(s, Initiate(o))
    ensures ReceiptsOnce(Apply(s, Initiate(o)))
  {
  }

  lemma DueWhenInFlight(s: State, p: Packet)
    requires FlightIsDue(s) && p in s.flight
    ensures Due(s, p) && s.flight[p] == 1
  {
    assert s.flight[p] > 0;
  }

  lemma DeliverFlight(s: State, p: Packet)
    requires Inv(s) && Enabled(s, Deliver(p))
    ensures FlightIsDue(Apply(s, Deliver(p)))
  {
    var t := Apply(s, Deliver(p));
    var o := s.origins[p.id];
    DueWhenInFlight(s, p);
    ForwardSends(s.n, o, p.dst);
    var to := Forwards(s.n, p.dst, o, p.src);
    assert t.flight == s.flight - multiset{p} + Packets(p.id, p.dst, to);
    forall q: Packet
      ensures t.flight[q] == if Due(t, q) then 1 else 0
    {
      PacketsOnce(p.id, p.dst, to, q);
      DeliverDue(s, p, q);
    }
  }

  /** Delivering `p` ends its own turn and starts that of the edges out of its target. */
  lemma DeliverDue(s: State, p: Packet, q: Packet)
    requires Inv(s) && Enabled(s, Deliver(p)) && Due(s, p)
    ensures Due(Apply(s, Deliver(p)), q) <==>
      (q != p && Due(s, q)) || (q.id == p.id && q.src == p.dst && IsChild(s.n, s.origins[p.id], p.dst, q.dst))
    ensures q.id == p.id && q.src == p.dst ==> !Due(s, q) && q != p
  {
    var t := Apply(s, Deliver(p));
    assert forall c: Receipt :: c in t.receipts <==> c in s.receipts || c == Receipt(p.id, p.dst);
    if q.id == p.id && q.src == p.dst && IsChild(s.n, s.origins[p.id], p.dst, q.dst) {
      assert !Heard(s, p.id, p.dst);
      assert Receipt(q.id, q.dst) !in s.receipts;
    }
  }

  lemma DeliverCounts(s: State, p: Packet)
    requires Inv(s) && Enabled(s, Deliver(p)) && Due(s, p)
    ensures Counted(Apply(s, Deliver(p)))
  {
    var t := Apply(s, Deliver(p));
    assert forall c: Receipt :: c in t.receipts <==> c in s.receipts || c == Receipt(p.id, p.dst);
    forall r: nat | r < s.n
      ensures t.recved[r] + t.sent[r] == HeardCount(t, r, |t.origins|)
    {
      if r == p.dst {
        HeardCountOneMore(s, t, r, p.id, |s.origins|);
      } else {
        HeardCountSame(s, t, r, |s.origins|);
      }
    }
  }

  lemma DeliverReceipts(s: State, p: Packet)
    requires Inv(s) && Enabled(s, Deliver(p)) && Due(s, p)
    ensures ReceiptsOnce(Apply(s, Deliver(p)))
  {
    var t := Apply(s, Deliver(p));
    assert forall c: Receipt :: t.receipts[c] == s.receipts[c] + if c == Receipt(p.id, p.dst) then 1 else 0;
    assert forall c: Receipt :: c in t.receipts <==> c in s.receipts || c == Receipt(p.id, p.dst);
  }

  lemma InitiateInv(s: State, o: nat)
    requires Inv(s) && Enabled(s, Initiate(o))
    ensures Inv(Apply(s, Initiate(o)))
  {
    InitiateFlight(s, o);
    InitiateCounts(s, o);
    InitiateReceipts(s, o);
  }

  lemma DeliverInv(s: State, p: Packet)
    requires Inv(s) && Enabled(s, Deliver(p))
    ensures Inv(Apply(s, Deliver(p)))
  {
    DueWhenInFlight(s, p);
    DeliverFlight(s, p);
    DeliverCounts(s, p);
    DeliverReceipts(s, p);
  }

  lemma ApplyInv(s: State, a: Action)
    requires Inv(s) && Enabled(s, a)
    ensures Inv(Apply(s, a))
  {
    if a.Initiate? {
      InitiateInv(s, a.origin);
    } else if a.Deliver? {
      DeliverInv(s, a.packet);
    } else {
      EnterInv(s, a.rank);
    }
  }

  lemma EnterFlight(s: State, r: nat)
    requires WellSized(s) && r < s.n && FlightIsDue(s)
    ensures FlightIsDue(Apply(s, Enter(r)))
  {
    var t := Apply(s, Enter(r));
    forall p: Packet
      ensures t.flight[p] == if Due(t, p) then 1 else 0
    {
      assert Due(s, p) <==> Due(t, p);
    }
  }

  lemma EnterCounts(s: State, r: nat)
    requires WellSized(s) && r < s.n && r !in s.entered && Counted(s)
    ensures Counted(Apply(s, Enter(r)))
  {
    var t := Apply(s, Enter(r));
    forall q: nat | q < s.n
      ensures t.recved[q] + t.sent[q] == HeardCount(t, q, |t.origins|)
    {
      HeardCountSame(s, t, q, |s.origins|);
    }
  }

  lemma EnterInv(s: State, r: nat)
    requires Inv(s) && Enabled(s, Enter(r))
    ensures Inv(Apply(s, Enter(r)))
  {
    EnterFlight(s, r);
    EnterCounts(s, r);
  }

  lemma InitInv(n: nat)
    requires n >= 2
    ensures Inv(Init(n))
  {
    SumZeros(n);
  }

  lemma {:induction false} RunInv(n: nat, acts: seq<Action>)
    requires Run(n, acts).Some?
    ensures Inv(Run(n, acts).value) && Run(n, acts).value.n == n
  {
    if acts == [] {
      InitInv(n);
    } else {
      var before := acts[..|acts| - 1];
      RunInv(n, before);
      ApplyInv(Run(n, before).value, acts[|acts| - 1]);
    }
  }

  // ---------------------------------------------------------------- main results

  /** `s` is reached by some interleaving on `n` ranks. */
  ghost predicate Reachable(n: nat, s: State) {
    exists acts :: Run(n, acts) == Some(s)
  }

  lemma ReachableInv(n: nat, s: State)
    requires Reachable(n, s)
    ensures Inv(s) && s.n == n
  {
    var acts :| Run(n, acts) == Some(s);
    RunInv(n, acts);
  }

  /** No interleaving delivers a broadcast twice to a rank, or at all to its origin. */
  lemma AtMostOnce(n: nat, s: State, id: nat, r: nat)
    requires Reachable(n, s) && id < |s.origins|
    ensures s.receipts[Receipt(id, r)] <= if r == s.origins[id] then 0 else 1
  {
    ReachableInv(n, s);
    if s.receipts[Receipt(id, r)] > 0 {
      assert Receipt(id, r) in s.receipts;
    }
  }

  /** Every packet on its way is the only one of its broadcast for that rank, and will be
      the first delivery there. */
  lemma PacketsAreFirst(n: nat, s: State, p: Packet)
    requires Reachable(n, s) && p in s.flight
    ensures s.flight[p] == 1 && Receipt(p.id, p.dst) !in s.receipts
    ensures p.id < |s.origins| && s.origins[p.id] != p.dst
    ensures forall q: Packet | q in s.flight && q.id == p.id && q.dst == p.dst :: q == p
  {
    ReachableInv(n, s);
    DueWhenInFlight(s, p);
    forall q: Packet | q in s.flight && q.id == p.id && q.dst == p.dst
      ensures q == p
    {
      DueWhenInFlight(s, q);
    }
  }

  lemma {:induction false} DrainedHeard(s: State, id: nat, r: nat)
    requires Inv(s) && s.flight == multiset{} && id < |s.origins| && r < s.n
    ensures Heard(s, id, r)
    decreases if s.origins[id] < s.n then Distance(s.n, s.origins[id], r) else 0
  {
    var o := s.origins[id];
    if r != o {
      ParentIsCloser(s.n, o, r);
      DrainedHeard(s, id, Parent(s.n, o, r));
      assert s.flight[Packet(id, Parent(s.n, o, r), r)] == 0;
    }
  }

  /** Nothing is lost: once no packet is left, every rank but the origin has received every
      broadcast exactly once. */
  lemma ExactlyOnceWhenDrained(n: nat, s: State, id: nat, r: nat)
    requires Reachable(n, s) && s.flight == multiset{} && id < |s.origins| && r < n
    ensures s.receipts[Receipt(id, r)] == if r == s.origins[id] then 0 else 1
  {
    AtMostOnce(n, s, id, r);
    ReachableInv(n, s);
    DrainedHeard(s, id, r);
  }

  ghost predicate AllEntered(s: State) {
    forall q: nat | q < s.n :: q in s.entered
  }

  /** No rank has started a broadcast after entering its cleanup. */
  ghost predicate NoneLate(s: State)
    requires WellSized(s)
  {
    forall r: nat | r < s.n :: s.late[r] == 0
  }

  /** Once every rank has entered its cleanup and none has started late, the two counters never
      exceed the total, and the wait loop may be left exactly when every broadcast has reached the
      rank; then no packet to it is left undelivered. */
  lemma CleanupLeavesWhenAllHeard(n: nat, s: State, r: nat)
    requires Reachable(n, s) && AllEntered(s) && r < n
    requires WellSized(s) && NoneLate(s)
    ensures r < s.n && s.recved[r] + s.sent[r] <= Total(s)
    ensures MayLeave(s, r) <==> forall id: nat | id < |s.origins| :: Heard(s, id, r)
    ensures MayLeave(s, r) ==> forall p: Packet | p in s.flight :: p.dst != r
  {
    ReachableInv(n, s);
    TotalCountsBroadcasts(s);
    HeardCountBound(s, r, |s.origins|);
    forall p: Packet | p in s.flight && p.dst == r
      ensures !Heard(s, p.id, r)
    {
      DueWhenInFlight(s, p);
    }
  }

  lemma TotalCountsBroadcasts(s: State)
    requires WellSized(s) && Contributed(s) && Sum(s.sent) == |s.origins|
    requires AllEntered(s) && NoneLate(s)
    ensures Total(s) == |s.origins|
  {
    assert s.contrib == s.sent;
  }

  lemma {:induction false} SumMonotone(a: seq<nat>, b: seq<nat>)
    requires |a| == |b| && forall r | 0 <= r < |a| :: a[r] <= b[r]
    ensures Sum(a) <= Sum(b)
  {
    if a != [] {
      SumMonotone(a[..|a| - 1], b[..|b| - 1]);
    }
  }

  /** The cleanup cannot hang, late starts or not: with nothing left to deliver every rank may
      leave. */
  lemma CleanupDrains(n: nat, s: State, r: nat)
    requires Reachable(n, s) && AllEntered(s) && r < n && s.flight == multiset{}
    ensures WellSized(s) && r < s.n && MayLeave(s, r)
  {
    ReachableInv(n, s);
    forall id: nat | id < |s.origins|
      ensures Heard(s, id, r)
    {
      DrainedHeard(s, id, r);
    }
    HeardCountBound(s, r, |s.origins|);
    SumMonotone(s.contrib, s.sent);
  }

  // ---------------------------------------------------------------- late starts

  /** What the cleanup promises at rank `r`: whoever may leave has nothing coming. */
  ghost predicate Promise(s: State, r: nat)
    requires WellSized(s) && r < s.n
  {
    MayLeave(s, r) ==> forall p: Packet | p in s.flight :: p.dst != r
  }

  /** A start changes nothing that its children's wait loops read, yet sends each of them a packet.
      So the promise at a child survives a start exactly if the child's own guard keeps it waiting. */
  lemma StartReachesChildren(n: nat, s: State, o: nat, c: nat)
    requires Reachable(n, s) && AllEntered(s) && o < n && c < n && IsChild(n, o, o, c)
    ensures WellSized(s) && o < s.n && c < s.n && WellSized(Apply(s, Initiate(o)))
    ensures var t := Apply(s, Initiate(o));
      && Packet(|s.origins|, o, c) in t.flight
      && (MayLeave(t, c) <==> MayLeave(s, c))
      && (Promise(t, c) <==> !MayLeave(s, c))
  {
    ReachableInv(n, s);
    InitialSends(n, o);
    PacketsOnce(|s.origins|, o, Initial(n, o), Packet(|s.origins|, o, c));
    assert Apply(s, Initiate(o)).contrib == s.contrib;
  }

  /** The state after some more actions, if each was enabled in its turn. */
  function Onward(s: State, acts: seq<Action>): Option<State> {
    if acts == [] then Some(s)
    else
      match Onward(s, acts[..|acts| - 1])
      case None => None
      case Some(t) =>
        var a := acts[|acts| - 1];
        if Enabled(t, a) then Some(Apply(t, a)) else None
  }

  lemma {:induction false} OnwardReachable(n: nat, s: State, acts: seq<Action>)
    requires Reachable(n, s) && Onward(s, acts).Some?
    ensures Reachable(n, Onward(s, acts).value)
  {
    if acts != [] {
      var front := acts[..|acts| - 1];
      OnwardReachable(n, s, front);
      var t := Onward(s, front).value;
      var before :| Run(n, before) == Some(t);
      var a := acts[|acts| - 1];
      assert (before + [a])[..|before|] == before;
      assert Run(n, before + [a]) == Onward(s, acts);
    }
  }

  /** Among the ranks in `starters` only. */
  ghost predicate StartedBy(acts: seq<Action>, starters: set<nat>) {
    forall i | 0 <= i < |acts| :: acts[i].Initiate? ==> acts[i].origin in starters
  }

  lemma {:induction false} OnwardKeeps(n: nat, s: State, acts: seq<Action>)
    requires Reachable(n, s) && AllEntered(s) && WellSized(s) && NoneLate(s)
    requires StartedBy(acts, {}) && Onward(s, acts).Some?
    ensures var t := Onward(s, acts).value;
      t.n == s.n && AllEntered(t) && WellSized(t) && NoneLate(t)
  {
    if acts != [] {
      var front := acts[..|acts| - 1];
      OnwardKeeps(n, s, front);
      OnwardReachable(n, s, front);
      ReachableInv(n, Onward(s, front).value);
      assert !acts[|acts| - 1].Initiate?;
      if acts[|acts| - 1].Deliver? {
        OnwardReachable(n, s, acts);
        ReachableInv(n, Onward(s, acts).value);
      }
    }
  }

  lemma {:induction false} SumBound(c: seq<nat>, d: seq<nat>, k: nat)
    requires |c| == |d| && forall r | 0 <= r < |c| :: c[r] + d[r] <= k
    ensures Sum(c) + Sum(d) <= |c| * k
  {
    if c != [] {
      SumBound(c[..|c| - 1], d[..|d| - 1], k);
      assert c[|c| - 1] + d[|d| - 1] <= k;
      assert (|c| - 1) * k + k == |c| * k;
    }
  }

  /** Deliveries that may still come. */
  function Pending(s: State): int
    requires WellSized(s)
  {
    s.n * |s.origins| - Sum(s.recved) - Sum(s.sent)
  }

  lemma PendingIsNat(s: State)
    requires Inv(s)
    ensures Pending(s) >= 0
  {
    forall r | 0 <= r < s.n
      ensures s.recved[r] + s.sent[r] <= |s.origins|
    {
      HeardCountBound(s, r, |s.origins|);
    }
    SumBound(s.recved, s.sent, |s.origins|);
  }

  lemma DeliverLessens(s: State, p: Packet)
    requires WellSized(s) && p.id < |s.origins| && p.dst < s.n
    ensures Pending(Apply(s, Deliver(p))) == Pending(s) - 1
  {
    SumUpdate(s.recved, p.dst, s.recved[p.dst] + 1);
  }

  lemma {:induction false} OnwardConcat(s: State, a: seq<Action>, b: seq<Action>)
    requires Onward(s, a).Some?
    ensures Onward(s, a + b) == Onward(Onward(s, a).value, b)
  {
    if b == [] {
      assert a + b == a;
    } else {
      assert (a + b)[..|a + b| - 1] == a + b[..|b| - 1];
      OnwardConcat(s, a, b[..|b| - 1]);
    }
  }

  /** Deliveries alone lead from `s` to `t`. */
  ghost predicate Delivers(s: State, acts: seq<Action>, t: State) {
    && (forall i | 0 <= i < |acts| :: acts[i].Deliver?)
    && Onward(s, acts) == Some(t) && t.n == s.n && t.entered == s.entered
  }

  lemma DeliversOn(s: State, a: seq<Action>, t: State, b: seq<Action>, u: State)
    requires Delivers(s, a, t) && Delivers(t, b, u)
    ensures Delivers(s, a + b, u)
  {
    OnwardConcat(s, a, b);
  }

  lemma StepReachable(n: nat, s: State, a: Action)
    requires Reachable(n, s) && Enabled(s, a)
    ensures Reachable(n, Apply(s, a)) && Onward(s, [a]) == Some(Apply(s, a))
  {
    assert [a][..0] == [];
    OnwardReachable(n, s, [a]);
  }

  lemma DeliverIsStep(s: State, p: Packet)
    requires Enabled(s, Deliver(p)) && Onward(s, [Deliver(p)]) == Some(Apply(s, Deliver(p)))
    ensures Delivers(s, [Deliver(p)], Apply(s, Deliver(p)))
  {
  }

  lemma SomePacket(n: nat, s: State) returns (p: Packet)
    requires Reachable(n, s) && s.flight != multiset{}
    ensures Inv(s) && Enabled(s, Deliver(p))
  {
    ReachableInv(n, s);
    p :| p in s.flight;
    DueWhenInFlight(s, p);
  }

  lemma DeliverOne(n: nat, s: State) returns (one: seq<Action>, t: State)
    requires Reachable(n, s) && s.flight != multiset{}
    ensures Delivers(s, one, t) && Reachable(n, t)
    ensures WellSized(s) && WellSized(t) && 0 <= Pending(t) == Pending(s) - 1
  {
    var p := SomePacket(n, s);
    DeliverLessens(s, p);
    StepReachable(n, s, Deliver(p));
    DeliverIsStep(s, p);
    one, t := [Deliver(p)], Apply(s, Deliver(p));
    ReachableInv(n, t);
    PendingIsNat(t);
  }

  /** The network can always be drained by deliveries alone. */
  lemma {:induction false} CanDrain(n: nat, s: State, room: nat) returns (acts: seq<Action>, t: State)
    requires Reachable(n, s) && WellSized(s) && 0 <= Pending(s) <= room
    ensures Delivers(s, acts, t) && t.flight == multiset{}
    decreases room
  {
    if s.flight == multiset{} {
      return [], s;
    }
    var one, next := DeliverOne(n, s);
    var rest;
    rest, t := CanDrain(n, next, room - 1);
    DeliversOn(s, one, next, rest, t);
    acts := one + rest;
  }

  /** Every origin has a child to send to. */
  lemma OriginHasChild(n: nat, o: nat) returns (c: nat)
    requires n >= 2 && o < n
    ensures c < n && IsChild(n, o, o, c)
  {
    InitialSends(n, o);
    c := Initial(n, o)[0];
    assert c in Initial(n, o);
  }

  lemma ReachableSize(n: nat, s: State)
    requires Reachable(n, s)
    ensures s.n == n
  {
    ReachableInv(n, s);
  }

  lemma DrainAll(n: nat, s: State) returns (acts: seq<Action>, t: State)
    requires Reachable(n, s)
    ensures Delivers(s, acts, t) && t.flight == multiset{} && Reachable(n, t)
  {
    ReachableInv(n, s);
    PendingIsNat(s);
    acts, t := CanDrain(n, s, Pending(s));
    OnwardReachable(n, s, acts);
  }

  lemma ThenStart(s: State, drain: seq<Action>, t: State, o: nat)
    requires Delivers(s, drain, t) && WellSized(t) && o < t.n
    ensures var acts := drain + [Initiate(o)];
      StartedBy(acts, {o}) && Onward(s, acts) == Some(Apply(t, Initiate(o)))
  {
    var acts := drain + [Initiate(o)];
    assert acts[..|drain|] == drain;
  }

  /** A rank that may start late can break the promise. */
  lemma LateStartBreaks(n: nat, s: State, o: nat) returns (acts: seq<Action>, c: nat)
    requires Reachable(n, s) && AllEntered(s) && o < n
    ensures StartedBy(acts, {o}) && Onward(s, acts).Some?
    ensures var t := Onward(s, acts).value; WellSized(t) && c < t.n && !Promise(t, c)
  {
    ReachableSize(n, s);
    var drain, t := DrainAll(n, s);
    c := OriginHasChild(n, o);
    CleanupDrains(n, t, c);
    StartReachesChildren(n, t, o, c);
    ThenStart(s, drain, t, o);
    acts := drain + [Initiate(o)];
  }

  /** The exact condition.  From any state in which all have entered and none has started late, the
      cleanup keeps its promise at every rank in every continuation if and only if no rank may
      start a broadcast any more. */
  lemma PromiseIffNoLateStarts(n: nat, s: State, starters: set<nat>)
    requires Reachable(n, s) && AllEntered(s) && WellSized(s) && NoneLate(s)
    ensures (forall o | o in starters :: o >= n) <==>
      forall acts: seq<Action>, r: nat | StartedBy(acts, starters) && Onward(s, acts).Some? && r < n ::
        KeepsPromise(Onward(s, acts).value, r)
  {
    if o :| o in starters && o < n {
      var acts, c := LateStartBreaks(n, s, o);
      ReachableInv(n, s);
      OnwardReachable(n, s, acts);
      ReachableInv(n, Onward(s, acts).value);
      assert StartedBy(acts, starters);
      assert !KeepsPromise(Onward(s, acts).value, c);
    } else {
      forall acts: seq<Action>, r: nat | StartedBy(acts, starters) && Onward(s, acts).Some? && r < n
        ensures KeepsPromise(Onward(s, acts).value, r)
      {
        NobodyStarts(n, s, acts, starters);
        OnwardKeeps(n, s, acts);
        OnwardReachable(n, s, acts);
        ReachableInv(n, s);
        CleanupLeavesWhenAllHeard(n, Onward(s, acts).value, r);
      }
    }
  }

  ghost predicate KeepsPromise(s: State, r: nat) {
    WellSized(s) && r < s.n && Promise(s, r)
  }

  lemma OneMoreQuiet(acts: seq<Action>)
    requires acts != [] && StartedBy(acts[..|acts| - 1], {}) && !acts[|acts| - 1].Initiate?
    ensures StartedBy(acts, {})
  {
    assert forall i | 0 <= i < |acts| - 1 :: acts[i] == acts[..|acts| - 1][i];
  }

  lemma LastWasEnabled(s: State, acts: seq<Action>)
    requires acts != [] && Onward(s, acts).Some?
    ensures Onward(s, acts[..|acts| - 1]).Some?
    ensures Enabled(Onward(s, acts[..|acts| - 1]).value, acts[|acts| - 1])
  {
  }

  /** Only existing ranks can start. */
  lemma {:induction false} NobodyStarts(n: nat, s: State, acts: seq<Action>, starters: set<nat>)
    requires Reachable(n, s) && Onward(s, acts).Some? && StartedBy(acts, starters)
    requires forall o | o in starters :: o >= n
    ensures StartedBy(acts, {})
  {
    if acts != [] {
      var front, last := acts[..|acts| - 1], acts[|acts| - 1];
      LastWasEnabled(s, acts);
      NobodyStarts(n, s, front, starters);
      OnwardReachable(n, s, front);
      ReachableSize(n, Onward(s, front).value);
      OneMoreQuiet(acts);
    }
  }

  /** The smallest case: of two ranks that have both entered, one starts a decision broadcast; the
      other may leave and misses it. */
  lemma LateInitiationIsMissed()
    ensures var s := Apply(Apply(Apply(Init(2), Enter(0)), Enter(1)), Initiate(0));
      WellSized(s) && MayLeave(s, 1) && Packet(0, 0, 1) in s.flight
  {
    var s := Apply(Apply(Init(2), Enter(0)), Enter(1));
    EnteredTwo(s);
    InitialSends(2, 0);
    assert IsChild(2, 0, 0, 1);
    CleanupDrains(2, s, 1);
    StartReachesChildren(2, s, 0, 1);
  }

  lemma EnteredTwo(s: State)
    requires s == Apply(Apply(Init(2), Enter(0)), Enter(1))
    ensures Reachable(2, s) && AllEntered(s) && s.flight == multiset{} && |s.origins| == 0
  {
    var one, two := [Enter(0)], [Enter(0), Enter(1)];
    assert one[..0] == [] && two[..1] == one;
    assert Run(2, one) == Some(Apply(Init(2), Enter(0)));
    assert Run(2, two) == Some(s);
  }
}
