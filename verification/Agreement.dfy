/** Replica agreement.  `all` is the global list of proposals in strict (time, pid) order.  Under
    the bounded-delay assumption every rank's log is, at every moment, a prefix of it. */
module Agreement {
  import opened Common
  import opened Proposals
  import opened Ledger

  predicate Holds(m: Mgr, p: Proposal) {
    p in m.ledger || p in m.exec || p in m.executed
  }

  /** When a rank reads `now`, every proposal older than the window has reached it, and the clock
      is past every timestamp in the ledger. */
  ghost predicate Timely(all: seq<Proposal>, window: nat, m: Mgr, now: nat) {
    && now < WORD
    && (forall p | p in m.ledger :: p.time <= now)
    && (forall p | p in all && p.time + window < now :: Holds(m, p))
  }

  /** No record a pass leaves behind is older than one it moves. */
  ghost predicate KeepsOrder(s: seq<Proposal>, nows: seq<nat>, window: nat)
    requires |nows| == |s|
  {
    forall i, j | 0 <= i < |s| && 0 <= j < |s| ::
      !Aged(s[i], nows[i], window) && Aged(s[j], nows[j], window) ==> !Older(s[i], s[j])
  }

  /** Checkouts deliver global proposals, each once; clock readings are timely; the readings of one
      pass may differ, as long as it keeps the order. */
  ghost predicate Fair(all: seq<Proposal>, window: nat, m: Mgr, e: Event) {
    match e
    case CheckOut(ps) =>
      && (forall p | p in ps :: p in all && !Holds(m, p))
      && Distinct(ps)
    case Age(now) => Timely(all, window, m, now)
    case Pass(nows) =>
      && |nows| == |m.ledger|
      && (forall i | 0 <= i < |nows| :: Timely(all, window, m, nows[i]))
      && KeepsOrder(m.ledger, nows, window)
    case Execute => true
  }

  ghost predicate Distinct(s: seq<Proposal>) {
    forall i, j | 0 <= i < j < |s| :: s[i] != s[j]
  }

  // ---- the invariant ----

  ghost predicate Later(all: seq<Proposal>, n: nat, p: Proposal) {
    exists i | n <= i < |all| :: all[i] == p
  }

  /** The log is a prefix of `all`, the queued records are the next ones in some order, and the
      ledger holds later ones. */
  ghost predicate InStep(all: seq<Proposal>, m: Mgr) {
    var a, n := |m.executed|, |m.executed| + |m.exec|;
    && n <= |all|
    && m.executed == all[..a]
    && multiset(m.exec) == multiset(all[a..n])
    && Distinct(m.ledger)
    && (forall p | p in m.ledger :: Later(all, n, p))
  }

  lemma DistinctOf(all: seq<Proposal>)
    requires StrictlySorted(all)
    ensures Distinct(all)
  {
  }

  /** The records already moved out of the ledger are exactly the first `n`. */
  lemma Gone(all: seq<Proposal>, m: Mgr, p: Proposal)
    requires InStep(all, m)
    ensures p in m.exec || p in m.executed <==> p in all[..|m.executed| + |m.exec|]
  {
    var a, n := |m.executed|, |m.executed| + |m.exec|;
    MemberByMultiset(m.exec, all[a..n], p);
    assert all[..n] == all[..a] + all[a..n];
  }

  lemma CheckOutKeeps(all: seq<Proposal>, m: Mgr, ps: seq<Proposal>)
    requires StrictlySorted(all) && InStep(all, m)
    requires Distinct(ps) && forall p | p in ps :: p in all && !Holds(m, p)
    ensures InStep(all, m.(ledger := m.ledger + ps))
  {
    var n := |m.executed| + |m.exec|;
    forall p | p in ps
      ensures Later(all, n, p) && p !in m.ledger
    {
      Gone(all, m, p);
      NotFirst(all, n, p);
    }
    JoinDistinct(m.ledger, ps);
  }

  lemma NotFirst(all: seq<Proposal>, n: nat, p: Proposal)
    requires n <= |all| && p in all && p !in all[..n]
    ensures Later(all, n, p)
  {
    assert forall i | 0 <= i < n :: all[i] in all[..n];
  }

  lemma JoinDistinct(a: seq<Proposal>, b: seq<Proposal>)
    requires Distinct(a) && Distinct(b) && forall p | p in b :: p !in a
    ensures Distinct(a + b)
  {
    var c := a + b;
    forall i, j | 0 <= i < j < |c|
      ensures c[i] != c[j]
    {
      if i < |a| <= j {
        assert c[j] in b;
      }
    }
  }

  lemma NoneOlder(s: seq<Proposal>, k: nat, q: Proposal)
    requires IsFirstOldest(s, k) && Older(q, s[k])
    ensures q !in s
  {
  }

  /** The oldest ledger record, once aged, is the next one in the global order. */
  lemma OldestIsNext(all: seq<Proposal>, window: nat, m: Mgr, now: nat, k: nat)
    requires StrictlySorted(all) && InStep(all, m) && Timely(all, window, m, now)
    requires IsFirstOldest(m.ledger, k) && Aged(m.ledger[k], now, window)
    ensures var n := |m.executed| + |m.exec|; n < |all| && m.ledger[k] == all[n]
  {
    var n, p := |m.executed| + |m.exec|, m.ledger[k];
    assert p in m.ledger && Later(all, n, p);
    var i :| n <= i < |all| && all[i] == p;
    if i > n {
      NoneOlder(m.ledger, k, all[n]);
      assert all[n] in all && all[n].time + window < now;
      Gone(all, m, all[n]);
    }
  }

  lemma AgeKeeps(all: seq<Proposal>, window: nat, m: Mgr, now: nat)
    requires StrictlySorted(all) && InStep(all, m) && Timely(all, window, m, now)
    ensures InStep(all, Step(m, window, Age(now)))
  {
    if m.ledger != [] && Aged(m.ledger[FirstOldest(m.ledger)], now, window) {
      var k := FirstOldest(m.ledger);
      OldestIsNext(all, window, m, now, k);
      MoveNextKeeps(all, m, k);
    }
  }

  lemma MoveNextKeeps(all: seq<Proposal>, m: Mgr, k: nat)
    requires StrictlySorted(all) && InStep(all, m)
    requires var n := |m.executed| + |m.exec|; n < |all| && k < |m.ledger| && m.ledger[k] == all[n]
    ensures InStep(all, m.(ledger := RemoveAt(m.ledger, k), exec := m.exec + [m.ledger[k]]))
  {
    var a, n := |m.executed|, |m.executed| + |m.exec|;
    assert all[a..n + 1] == all[a..n] + [all[n]];
    var rest := RemoveAt(m.ledger, k);
    forall p | p in rest
      ensures Later(all, n + 1, p)
    {
      var j :| 0 <= j < |rest| && rest[j] == p;
      assert p in m.ledger && p != m.ledger[k] && Later(all, n, p);
    }
  }

  lemma SliceSorted(all: seq<Proposal>, a: nat, n: nat)
    requires StrictlySorted(all) && a <= n <= |all|
    ensures StrictlySorted(all[a..n])
  {
  }

  lemma DrainIsNext(all: seq<Proposal>, exec: seq<Proposal>, a: nat, n: nat)
    requires StrictlySorted(all) && a <= n <= |all| && multiset(exec) == multiset(all[a..n])
    ensures Drain(exec) == all[a..n]
  {
    DrainSorts(exec);
    DrainPermutes(exec);
    SliceSorted(all, a, n);
    SortedUnique(Drain(exec), all[a..n]);
  }

  /** Draining the execution queue appends exactly the next records of the global order. */
  lemma ExecuteKeeps(all: seq<Proposal>, m: Mgr)
    requires StrictlySorted(all) && InStep(all, m)
    ensures m.executed + Drain(m.exec) == all[..|m.executed| + |m.exec|]
    ensures InStep(all, m.(exec := [], executed := m.executed + Drain(m.exec)))
  {
    var a, n := |m.executed|, |m.executed| + |m.exec|;
    DrainIsNext(all, m.exec, a, n);
    assert all[..n] == all[..a] + all[a..n];
    assert multiset(all[n..n]) == multiset{};
  }

  // ---- one pass ----

  /** One of the first `i` records is `p`, and its own reading found it aged or not. */
  ghost predicate PickedFrom(s: seq<Proposal>, nows: seq<nat>, window: nat, aged: bool, i: nat, p: Proposal)
    requires i <= |s| && i <= |nows|
  {
    exists j | 0 <= j < i :: s[j] == p && Aged(p, nows[j], window) == aged
  }

  lemma {:induction false} PickedMembers(s: seq<Proposal>, nows: seq<nat>, window: nat, aged: bool, i: nat)
    requires i <= |s| && i <= |nows| && Distinct(s[..i])
    ensures var r := Picked(s, nows, window, aged, i);
      Distinct(r) && forall p :: p in r <==> PickedFrom(s, nows, window, aged, i, p)
  {
    if i > 0 {
      var x := s[i - 1];
      assert s[..i] == s[..i - 1] + [x];
      assert Distinct(s[..i - 1]) && x !in s[..i - 1];
      PickedMembers(s, nows, window, aged, i - 1);
      var before := Picked(s, nows, window, aged, i - 1);
      forall p | p in before ensures p in s[..i - 1] {
        assert PickedFrom(s, nows, window, aged, i - 1, p);
      }
      JoinDistinct(before, if Aged(x, nows[i - 1], window) == aged then [x] else []);
    }
  }

  lemma {:induction false} SameMembers(a: seq<Proposal>, b: seq<Proposal>)
    requires Distinct(a) && Distinct(b) && forall p :: p in a <==> p in b
    ensures multiset(a) == multiset(b)
  {
    forall p
      ensures multiset(a)[p] == multiset(b)[p]
    {
      CountOnce(a, p);
      CountOnce(b, p);
    }
  }

  /** The records `m.ledger` loses to a pass, or keeps. */
  ghost predicate Sorts(m: Mgr, nows: seq<nat>, window: nat, aged: bool, r: seq<Proposal>) {
    && |nows| == |m.ledger| && Distinct(r)
    && forall p :: p in r <==> PickedFrom(m.ledger, nows, window, aged, |nows|, p)
  }

  ghost predicate AllTimely(all: seq<Proposal>, window: nat, m: Mgr, nows: seq<nat>) {
    forall i | 0 <= i < |nows| :: Timely(all, window, m, nows[i])
  }

  /** With a moved record go all those before it that are not yet gone. */
  lemma EarlierMovesToo(
      all: seq<Proposal>, window: nat, m: Mgr, nows: seq<nat>, moved: seq<Proposal>, i: nat, j: nat)
    requires StrictlySorted(all) && InStep(all, m) && AllTimely(all, window, m, nows)
    requires Sorts(m, nows, window, true, moved) && KeepsOrder(m.ledger, nows, window)
    requires |m.executed| + |m.exec| <= i < j < |all| && all[j] in moved
    ensures all[i] in moved
  {
    var n, p, q := |m.executed| + |m.exec|, all[j], all[i];
    assert PickedFrom(m.ledger, nows, window, true, |nows|, p);
    var y :| 0 <= y < |nows| && m.ledger[y] == p && Aged(p, nows[y], window);
    assert Timely(all, window, m, nows[y]) && p in m.ledger && q in all;
    assert Older(q, p) && Holds(m, q);
    Gone(all, m, q);
    assert q !in all[..n];
    var x :| 0 <= x < |nows| && m.ledger[x] == q;
    assert Aged(m.ledger[x], nows[x], window);
    assert PickedFrom(m.ledger, nows, window, true, |nows|, q);
  }

  ghost predicate AllLater(all: seq<Proposal>, n: nat, moved: seq<Proposal>) {
    forall p | p in moved :: Later(all, n, p)
  }

  ghost predicate NoneLeftOut(all: seq<Proposal>, n: nat, moved: seq<Proposal>) {
    forall i, j | n <= i < j < |all| && all[j] in moved :: all[i] in moved
  }

  ghost predicate IsStretch(all: seq<Proposal>, n: nat, n': nat, moved: seq<Proposal>) {
    n <= n' <= |all| && forall p :: p in moved <==> p in all[n..n']
  }

  lemma MovedGapless(all: seq<Proposal>, window: nat, m: Mgr, nows: seq<nat>, moved: seq<Proposal>)
    requires StrictlySorted(all) && InStep(all, m) && AllTimely(all, window, m, nows)
    requires Sorts(m, nows, window, true, moved) && KeepsOrder(m.ledger, nows, window)
    ensures var n := |m.executed| + |m.exec|; AllLater(all, n, moved) && NoneLeftOut(all, n, moved)
  {
    var n := |m.executed| + |m.exec|;
    forall p | p in moved ensures Later(all, n, p) {
      assert PickedFrom(m.ledger, nows, window, true, |nows|, p);
    }
    forall i, j | n <= i < j < |all| && all[j] in moved ensures all[i] in moved {
      EarlierMovesToo(all, window, m, nows, moved, i, j);
    }
  }

  /** A set of later records that leaves none out is the next stretch of the global order. */
  lemma {:induction false} MovedEnd(all: seq<Proposal>, n: nat, moved: seq<Proposal>) returns (n': nat)
    requires n <= |all| && AllLater(all, n, moved) && NoneLeftOut(all, n, moved)
    ensures IsStretch(all, n, n', moved)
  {
    n' := |all|;
    while n' > n && all[n' - 1] !in moved
      invariant n <= n' <= |all| && forall i | n' <= i < |all| :: all[i] !in moved
    {
      n' := n' - 1;
    }
    forall p
      ensures p in moved <==> p in all[n..n']
    {
      if p in moved {
        assert Later(all, n, p);
        var i :| n <= i < |all| && all[i] == p;
        assert all[n..n'][i - n] == p;
      }
    }
  }

  lemma StretchCount(all: seq<Proposal>, n: nat, n': nat, moved: seq<Proposal>)
    requires StrictlySorted(all) && Distinct(moved) && IsStretch(all, n, n', moved)
    ensures multiset(moved) == multiset(all[n..n'])
  {
    SliceSorted(all, n, n');
    DistinctOf(all[n..n']);
    SameMembers(moved, all[n..n']);
  }

  /** A pass that keeps the order moves the next records of the global order, though perhaps out of
      order among themselves. */
  lemma PassKeeps(all: seq<Proposal>, window: nat, m: Mgr, nows: seq<nat>)
    requires StrictlySorted(all) && InStep(all, m) && AllTimely(all, window, m, nows)
    requires |nows| == |m.ledger| && KeepsOrder(m.ledger, nows, window)
    ensures InStep(all, Step(m, window, Pass(nows)))
  {
    var kept, moved := PassSplits(m, window, nows);
    var n := |m.executed| + |m.exec|;
    MovedGapless(all, window, m, nows, moved);
    var n' := MovedEnd(all, n, moved);
    KeptAllLater(all, m, window, nows, kept, moved, n');
    Advance(all, m, kept, moved, n');
  }

  lemma KeptAllLater(
      all: seq<Proposal>, m: Mgr, window: nat, nows: seq<nat>, kept: seq<Proposal>, moved: seq<Proposal>,
      n': nat)
    requires InStep(all, m) && IsStretch(all, |m.executed| + |m.exec|, n', moved)
    requires Sorts(m, nows, window, false, kept) && Sorts(m, nows, window, true, moved)
    ensures AllLater(all, n', kept)
  {
    forall p | p in kept ensures Later(all, n', p) {
      KeptAreLater(all, m, window, nows, kept, moved, n', p);
    }
  }

  lemma Advance(all: seq<Proposal>, m: Mgr, kept: seq<Proposal>, moved: seq<Proposal>, n': nat)
    requires StrictlySorted(all) && InStep(all, m) && IsStretch(all, |m.executed| + |m.exec|, n', moved)
    requires Distinct(moved) && Distinct(kept) && AllLater(all, n', kept)
    ensures InStep(all, m.(ledger := kept, exec := m.exec + moved))
  {
    StretchCount(all, |m.executed| + |m.exec|, n', moved);
    Extend(all, m, moved, n');
    Reassemble(all, m, kept, m.exec + moved, n');
  }

  lemma PassSplits(m: Mgr, window: nat, nows: seq<nat>) returns (kept: seq<Proposal>, moved: seq<Proposal>)
    requires |nows| == |m.ledger| && Distinct(m.ledger)
    ensures Sorts(m, nows, window, false, kept) && Sorts(m, nows, window, true, moved)
    ensures Step(m, window, Pass(nows)) == m.(ledger := kept, exec := m.exec + moved)
  {
    kept := Picked(m.ledger, nows, window, false, |nows|);
    moved := Picked(m.ledger, nows, window, true, |nows|);
    assert m.ledger[..|nows|] == m.ledger;
    PickedMembers(m.ledger, nows, window, false, |nows|);
    PickedMembers(m.ledger, nows, window, true, |nows|);
  }

  lemma KeptAreLater(
      all: seq<Proposal>, m: Mgr, window: nat, nows: seq<nat>, kept: seq<Proposal>, moved: seq<Proposal>,
      n': nat, p: Proposal)
    requires InStep(all, m) && IsStretch(all, |m.executed| + |m.exec|, n', moved)
    requires Sorts(m, nows, window, false, kept) && Sorts(m, nows, window, true, moved) && p in kept
    ensures Later(all, n', p)
  {
    var n := |m.executed| + |m.exec|;
    KeptIsNotMoved(m, window, nows, kept, moved, p);
    assert PickedFrom(m.ledger, nows, window, false, |nows|, p);
    assert Later(all, n, p);
    assert forall i | n <= i < n' :: all[i] in all[n..n'];
  }

  lemma KeptIsNotMoved(
      m: Mgr, window: nat, nows: seq<nat>, kept: seq<Proposal>, moved: seq<Proposal>, p: Proposal)
    requires Distinct(m.ledger) && p in kept
    requires Sorts(m, nows, window, false, kept) && Sorts(m, nows, window, true, moved)
    ensures p !in moved
  {
    assert PickedFrom(m.ledger, nows, window, false, |nows|, p);
  }

  /** With timely readings, keeping the order is exactly what a pass must do to stay in step. */
  lemma PassKeepsIff(all: seq<Proposal>, window: nat, m: Mgr, nows: seq<nat>)
    requires StrictlySorted(all) && InStep(all, m) && AllTimely(all, window, m, nows)
    requires |nows| == |m.ledger|
    ensures InStep(all, Step(m, window, Pass(nows))) <==> KeepsOrder(m.ledger, nows, window)
  {
    if KeepsOrder(m.ledger, nows, window) {
      PassKeeps(all, window, m, nows);
    } else {
      var i, j :| 0 <= i < |nows| && 0 <= j < |nows|
        && !Aged(m.ledger[i], nows[i], window) && Aged(m.ledger[j], nows[j], window)
        && Older(m.ledger[i], m.ledger[j]);
      var kept, moved := PassSplits(m, window, nows);
      var m' := Step(m, window, Pass(nows));
      assert PickedFrom(m.ledger, nows, window, false, |nows|, m.ledger[i]);
      assert PickedFrom(m.ledger, nows, window, true, |nows|, m.ledger[j]);
      assert m.ledger[i] in m'.ledger && m.ledger[j] in m'.exec;
      if InStep(all, m') {
        OutOfStep(all, m', m.ledger[i], m.ledger[j]);
      }
    }
  }

  /** In step, nothing left in the ledger is older than what is queued. */
  lemma OutOfStep(all: seq<Proposal>, m: Mgr, p: Proposal, q: Proposal)
    requires StrictlySorted(all) && InStep(all, m) && p in m.ledger && q in m.exec
    ensures !Older(p, q)
  {
    var n := |m.executed| + |m.exec|;
    Gone(all, m, q);
    var j :| 0 <= j < n && all[j] == q;
    assert Later(all, n, p);
    var i :| n <= i < |all| && all[i] == p;
    assert Older(all[j], all[i]);
  }

  lemma Reassemble(all: seq<Proposal>, m: Mgr, kept: seq<Proposal>, exec: seq<Proposal>, n': nat)
    requires InStep(all, m) && n' <= |all| && |m.executed| + |exec| == n'
    requires multiset(exec) == multiset(all[|m.executed|..n'])
    requires Distinct(kept) && forall p | p in kept :: Later(all, n', p)
    ensures InStep(all, m.(ledger := kept, exec := exec))
  {
  }

  lemma Extend(all: seq<Proposal>, m: Mgr, moved: seq<Proposal>, n': nat)
    requires InStep(all, m)
    requires |m.executed| + |m.exec| <= n' <= |all|
    requires multiset(moved) == multiset(all[|m.executed| + |m.exec|..n'])
    ensures |m.exec + moved| == n' - |m.executed|
    ensures multiset(m.exec + moved) == multiset(all[|m.executed|..n'])
  {
    var a, n := |m.executed|, |m.executed| + |m.exec|;
    assert |moved| == |multiset(moved)| == |multiset(all[n..n'])| == n' - n;
    assert all[a..n'] == all[a..n] + all[n..n'];
    assert multiset(m.exec + moved) == multiset(m.exec) + multiset(moved);
  }

  // ---- all runs ----

  lemma StepKeeps(all: seq<Proposal>, window: nat, m: Mgr, e: Event)
    requires StrictlySorted(all) && InStep(all, m) && Fair(all, window, m, e)
    ensures InStep(all, Step(m, window, e))
  {
    match e
    case CheckOut(ps) => CheckOutKeeps(all, m, ps);
    case Age(now) => AgeKeeps(all, window, m, now);
    case Pass(nows) => PassKeeps(all, window, m, nows);
    case Execute => ExecuteKeeps(all, m);
  }

  /** A run in which every step is fair. */
  ghost predicate FairRun(all: seq<Proposal>, window: nat, m: Mgr, es: seq<Event>)
    decreases |es|
  {
    es == [] ||
    var front := es[..|es| - 1];
    && FairRun(all, window, m, front)
    && Legal(m, window, front)
    && Fair(all, window, Run(m, window, front), es[|es| - 1])
  }

  const EMPTY := Mgr([], [], [])

  lemma {:induction false} RunKeeps(all: seq<Proposal>, window: nat, es: seq<Event>)
    requires StrictlySorted(all) && FairRun(all, window, EMPTY, es)
    ensures Legal(EMPTY, window, es) && InStep(all, Run(EMPTY, window, es))
    decreases |es|
  {
    if es == [] {
      assert multiset(all[0..0]) == multiset{};
    } else {
      var front := es[..|es| - 1];
      RunKeeps(all, window, front);
      StepKeeps(all, window, Run(EMPTY, window, front), es[|es| - 1]);
    }
  }

  ghost predicate Prefix(a: seq<Proposal>, b: seq<Proposal>) {
    |a| <= |b| && a == b[..|a|]
  }

  /** Log plus whatever is queued, once drained, is always a prefix of the global order. */
  lemma LogIsPrefix(all: seq<Proposal>, window: nat, es: seq<Event>)
    requires StrictlySorted(all) && FairRun(all, window, EMPTY, es)
    ensures Legal(EMPTY, window, es)
    ensures var m := Run(EMPTY, window, es);
      Prefix(m.executed, all) && Prefix(m.executed + Drain(m.exec), all)
  {
    RunKeeps(all, window, es);
    ExecuteKeeps(all, Run(EMPTY, window, es));
  }

  /** Replica agreement: of any two ranks' logs, one extends the other. */
  lemma ReplicasAgree(all: seq<Proposal>, window: nat, es1: seq<Event>, es2: seq<Event>)
    requires StrictlySorted(all)
    requires FairRun(all, window, EMPTY, es1) && FairRun(all, window, EMPTY, es2)
    ensures Legal(EMPTY, window, es1) && Legal(EMPTY, window, es2)
    ensures var l1, l2 := Run(EMPTY, window, es1).executed, Run(EMPTY, window, es2).executed;
      Prefix(l1, l2) || Prefix(l2, l1)
  {
    LogIsPrefix(all, window, es1);
    LogIsPrefix(all, window, es2);
  }

  // ---- runs without passes ----

  /** When only the aging loop feeds it, the execution queue itself is in order. */
  lemma {:induction false} QueueIsInOrder(all: seq<Proposal>, window: nat, es: seq<Event>)
    requires StrictlySorted(all) && FairRun(all, window, EMPTY, es)
    requires forall e | e in es :: !e.Pass?
    ensures Legal(EMPTY, window, es)
    ensures var m := Run(EMPTY, window, es); Prefix(m.executed + m.exec, all)
    decreases |es|
  {
    RunKeeps(all, window, es);
    if es != [] {
      var front, e := es[..|es| - 1], es[|es| - 1];
      var m := Run(EMPTY, window, front);
      QueueIsInOrder(all, window, front);
      RunKeeps(all, window, front);
      if e.Execute? {
        ExecuteKeeps(all, m);
      } else if e.Age? && m.ledger != [] && Aged(m.ledger[FirstOldest(m.ledger)], e.now, window) {
        OldestIsNext(all, window, m, e.now, FirstOldest(m.ledger));
        NextInOrder(all, m, m.ledger[FirstOldest(m.ledger)]);
      }
    }
  }

  lemma NextInOrder(all: seq<Proposal>, m: Mgr, p: Proposal)
    requires Prefix(m.executed + m.exec, all)
    requires var n := |m.executed| + |m.exec|; n < |all| && all[n] == p
    ensures Prefix(m.executed + (m.exec + [p]), all)
  {
    var n := |m.executed| + |m.exec|;
    assert m.executed + (m.exec + [p]) == all[..n] + [p];
  }

  // ---- several readings in one pass ----

  ghost predicate Stamped(s: seq<Proposal>, now: nat) {
    forall i | 0 <= i < |s| :: s[i].time <= now
  }

  ghost predicate ClockRuns(nows: seq<nat>) {
    && nows != [] && nows[|nows| - 1] < WORD
    && forall i, j | 0 <= i <= j < |nows| :: nows[i] <= nows[j]
  }

  ghost predicate OneReading(nows: seq<nat>) {
    forall i | 0 <= i < |nows| :: nows[i] == nows[0]
  }

  lemma OneReadingKeepsOrder(s: seq<Proposal>, nows: seq<nat>, window: nat)
    requires |nows| == |s| && ClockRuns(nows) && OneReading(nows) && Stamped(s, nows[0])
    ensures KeepsOrder(s, nows, window)
  {
  }

  /** The two neighbours between which the clock first ticks. */
  lemma FirstTick(nows: seq<nat>) returns (i: nat)
    requires ClockRuns(nows) && !OneReading(nows)
    ensures i + 1 < |nows| && nows[i] == nows[0] && nows[i] < nows[i + 1]
  {
    i := 0;
    while nows[i + 1] == nows[0]
      invariant i + 1 < |nows| && forall j | 0 <= j <= i :: nows[j] == nows[0]
      decreases |nows| - i
    {
      i := i + 1;
    }
  }

  lemma TickBreaksOrder(nows: seq<nat>, window: nat) returns (s: seq<Proposal>)
    requires ClockRuns(nows) && window <= nows[0] && !OneReading(nows)
    ensures |s| == |nows| && Stamped(s, nows[0]) && !KeepsOrder(s, nows, window)
  {
    var k := FirstTick(nows);
    s := seq(|nows|, i => Proposal(i, APPROVED, nows[0] - window, 0, 0, []));
    assert !Aged(s[k], nows[k], window) && Aged(s[k + 1], nows[k + 1], window);
    assert Older(s[k], s[k + 1]);
  }

  /** The pass is safe for every ledger exactly when all its callbacks read the same clock. */
  lemma PassIsSafeIffOneReading(nows: seq<nat>, window: nat)
    requires ClockRuns(nows) && window <= nows[0]
    ensures OneReading(nows) <==>
      forall s: seq<Proposal> | |s| == |nows| && Stamped(s, nows[0]) :: KeepsOrder(s, nows, window)
  {
    if OneReading(nows) {
      forall s: seq<Proposal> | |s| == |nows| && Stamped(s, nows[0])
        ensures KeepsOrder(s, nows, window)
      {
        OneReadingKeepsOrder(s, nows, window);
      }
    } else {
      var s := TickBreaksOrder(nows, window);
    }
  }

  /** The clock starts at `lo` and runs on. */
  ghost predicate RunsFrom(nows: seq<nat>, lo: nat) {
    ClockRuns(nows) && lo <= nows[0]
  }

  /** No record that is still young at `lo` is older than a later one in the queue. */
  ghost predicate YoungInOrder(s: seq<Proposal>, lo: nat, window: nat) {
    forall i, j | 0 <= i < j < |s| && s[i].time + window >= lo :: !Older(s[i], s[j])
  }

  lemma OrderedLedgerIsSafe(s: seq<Proposal>, lo: nat, window: nat, nows: seq<nat>)
    requires Stamped(s, lo) && |nows| == |s| && RunsFrom(nows, lo) && YoungInOrder(s, lo, window)
    ensures KeepsOrder(s, nows, window)
  {
    forall i, j | 0 <= i < |s| && 0 <= j < |s|
        && !Aged(s[i], nows[i], window) && Aged(s[j], nows[j], window)
      ensures !Older(s[i], s[j])
    {
      assert nows[i] <= nows[|nows| - 1] && nows[j] <= nows[|nows| - 1];
      assert nows[0] <= nows[i];
    }
  }

  /** Readings that keep the first `j` records young and age all others. */
  lemma LateTick(s: seq<Proposal>, lo: nat, window: nat, i: nat, j: nat) returns (nows: seq<nat>)
    requires Stamped(s, lo) && lo + window + 1 < WORD && i < j < |s|
    requires s[i].time + window >= lo && Older(s[i], s[j])
    ensures |nows| == |s| && RunsFrom(nows, lo) && !KeepsOrder(s, nows, window)
  {
    nows := seq(|s|, x => if x < j then lo else lo + window + 1);
    assert !Aged(s[i], nows[i], window) && Aged(s[j], nows[j], window);
  }

  /** What a caller can check before the pass: it is safe whatever the clock does meanwhile exactly
      if no record still inside the window is older than one behind it in the ledger. */
  lemma PassIsSafeIffYoungInOrder(s: seq<Proposal>, lo: nat, window: nat)
    requires s != [] && Stamped(s, lo) && lo + window + 1 < WORD
    ensures YoungInOrder(s, lo, window) <==>
      forall nows: seq<nat> | |nows| == |s| && RunsFrom(nows, lo) :: KeepsOrder(s, nows, window)
  {
    if YoungInOrder(s, lo, window) {
      forall nows: seq<nat> | |nows| == |s| && RunsFrom(nows, lo)
        ensures KeepsOrder(s, nows, window)
      {
        OrderedLedgerIsSafe(s, lo, window, nows);
      }
    } else {
      var i, j :| 0 <= i < j < |s| && s[i].time + window >= lo && Older(s[i], s[j]);
      var nows := LateTick(s, lo, window, i, j);
    }
  }

  /** So a pass that begins at `lo` over such a ledger is fair, whatever timely readings it makes. */
  lemma YoungPassIsFair(all: seq<Proposal>, window: nat, m: Mgr, lo: nat, nows: seq<nat>)
    requires Stamped(m.ledger, lo) && YoungInOrder(m.ledger, lo, window)
    requires |nows| == |m.ledger| && RunsFrom(nows, lo) && AllTimely(all, window, m, nows)
    ensures Fair(all, window, m, Pass(nows))
  {
    OrderedLedgerIsSafe(m.ledger, lo, window, nows);
  }

  lemma CheckOutPassExecute(window: nat, ps: seq<Proposal>, nows: seq<nat>)
    requires |nows| == |ps|
    ensures var es := [CheckOut(ps), Pass(nows), Execute];
      var moved := Picked(ps, nows, window, true, |ps|);
      Legal(EMPTY, window, es) && Run(EMPTY, window, es).executed == Drain(moved)
  {
    var e1, e2 := [CheckOut(ps)], [CheckOut(ps), Pass(nows)];
    assert [] + [CheckOut(ps)] == e1 && e1 + [Pass(nows)] == e2;
    OneMore(EMPTY, window, [], CheckOut(ps));
    assert Run(EMPTY, window, e1) == Mgr(ps, [], []);
    OneMore(EMPTY, window, e1, Pass(nows));
    var moved := Picked(ps, nows, window, true, |ps|);
    assert Run(EMPTY, window, e2).exec == moved && Run(EMPTY, window, e2).executed == [];
    OneMore(EMPTY, window, e2, Execute);
    assert e2 + [Execute] == [CheckOut(ps), Pass(nows), Execute];
  }

  /** Two ranks with the same ledger; on one the clock ticks during the pass.  Their logs then
      disagree for good. */
  lemma TickingPassesDisagree()
    ensures var p, q := Proposal(1, APPROVED, 90, 0, 0, []), Proposal(2, APPROVED, 90, 0, 0, []);
      var steady := [CheckOut([p, q]), Pass([101, 101]), Execute];
      var ticking := [CheckOut([p, q]), Pass([100, 101]), Execute];
      && Legal(EMPTY, 10, steady) && Run(EMPTY, 10, steady).executed == [p, q]
      && Legal(EMPTY, 10, ticking) && Run(EMPTY, 10, ticking).executed == [q]
  {
    var p, q := Proposal(1, APPROVED, 90, 0, 0, []), Proposal(2, APPROVED, 90, 0, 0, []);
    CheckOutPassExecute(10, [p, q], [101, 101]);
    CheckOutPassExecute(10, [p, q], [100, 101]);
    assert Picked([p, q], [101, 101], 10, true, 1) == [p];
    assert Picked([p, q], [100, 101], 10, true, 1) == [];
    DrainTakes([p, q], 0);
    assert RemoveAt([p, q], 0) == [q];
    DrainTakes([q], 0);
    assert RemoveAt([q], 0) == [];
  }

  // ---- the local mark ----

  /** The submitter keeps its own copy marked local; the copies elsewhere are not. */
  function Shared(p: Proposal): (q: Proposal)
    ensures q.isLocal == 0 && q.(isLocal := p.isLocal) == p
  {
    p.(isLocal := 0)
  }

  function SharedAll(s: seq<Proposal>): seq<Proposal> {
    seq(|s|, i requires 0 <= i < |s| => Shared(s[i]))
  }

  function SharedEvent(e: Event): Event {
    if e.CheckOut? then CheckOut(SharedAll(e.ps)) else e
  }

  function SharedMgr(m: Mgr): Mgr {
    Mgr(SharedAll(m.ledger), SharedAll(m.exec), SharedAll(m.executed))
  }

  function SharedRun(es: seq<Event>): seq<Event> {
    seq(|es|, i requires 0 <= i < |es| => SharedEvent(es[i]))
  }

  lemma SharedOldest(s: seq<Proposal>)
    requires s != []
    ensures SharedAll(s) != [] && FirstOldest(SharedAll(s)) == FirstOldest(s)
  {
    assert IsFirstOldest(SharedAll(s), FirstOldest(s));
    FirstOldestUnique(SharedAll(s), FirstOldest(s), FirstOldest(SharedAll(s)));
  }

  lemma SharedRemove(s: seq<Proposal>, k: nat)
    requires k < |s|
    ensures RemoveAt(SharedAll(s), k) == SharedAll(RemoveAt(s, k))
  {
  }

  lemma SharedCons(x: Proposal, rest: seq<Proposal>)
    ensures SharedAll([x] + rest) == [Shared(x)] + SharedAll(rest)
  {
  }

  lemma {:induction false} SharedDrain(s: seq<Proposal>)
    ensures Drain(SharedAll(s)) == SharedAll(Drain(s))
    decreases |s|
  {
    if s != [] {
      var k := FirstOldest(s);
      SharedOldest(s);
      SharedRemove(s, k);
      DrainTakes(SharedAll(s), k);
      SharedDrain(RemoveAt(s, k));
      SharedCons(s[k], Drain(RemoveAt(s, k)));
    }
  }

  lemma {:induction false} SharedPicked(
      s: seq<Proposal>, nows: seq<nat>, window: nat, aged: bool, i: nat)
    requires i <= |s| && i <= |nows|
    ensures Picked(SharedAll(s), nows, window, aged, i) == SharedAll(Picked(s, nows, window, aged, i))
  {
    if i > 0 {
      SharedPicked(s, nows, window, aged, i - 1);
    }
  }

  lemma SharedConcat(a: seq<Proposal>, b: seq<Proposal>)
    ensures SharedAll(a + b) == SharedAll(a) + SharedAll(b)
  {
  }

  lemma SharedAge(m: Mgr, window: nat, now: nat)
    ensures Step(SharedMgr(m), window, Age(now)) == SharedMgr(Step(m, window, Age(now)))
  {
    if m.ledger != [] {
      var k := FirstOldest(m.ledger);
      SharedOldest(m.ledger);
      SharedRemove(m.ledger, k);
      SharedConcat(m.exec, [m.ledger[k]]);
    }
  }

  lemma SharedPass(m: Mgr, window: nat, nows: seq<nat>)
    requires |nows| == |m.ledger|
    ensures Step(SharedMgr(m), window, Pass(nows)) == SharedMgr(Step(m, window, Pass(nows)))
  {
    SharedPicked(m.ledger, nows, window, false, |nows|);
    SharedPicked(m.ledger, nows, window, true, |nows|);
    SharedConcat(m.exec, Picked(m.ledger, nows, window, true, |nows|));
  }

  /** The mark never influences a step. */
  lemma SharedStep(m: Mgr, window: nat, e: Event)
    requires Ready(m, e)
    ensures Step(SharedMgr(m), window, SharedEvent(e)) == SharedMgr(Step(m, window, e))
  {
    match e
    case CheckOut(ps) => SharedConcat(m.ledger, ps);
    case Age(now) => SharedAge(m, window, now);
    case Pass(nows) => SharedPass(m, window, nows);
    case Execute =>
      SharedDrain(m.exec);
      SharedConcat(m.executed, Drain(m.exec));
  }

  lemma {:induction false} SharedRuns(m: Mgr, window: nat, es: seq<Event>)
    requires Legal(m, window, es)
    ensures Legal(SharedMgr(m), window, SharedRun(es))
    ensures Run(SharedMgr(m), window, SharedRun(es)) == SharedMgr(Run(m, window, es))
    decreases |es|
  {
    if es != [] {
      var front := es[..|es| - 1];
      SharedRuns(m, window, front);
      assert SharedRun(es)[..|es| - 1] == SharedRun(front);
      SharedStep(Run(m, window, front), window, es[|es| - 1]);
    }
  }

  /** Replica agreement between ranks that mark their own submissions: the logs agree up to the
      mark. */
  lemma MarkedReplicasAgree(all: seq<Proposal>, window: nat, es1: seq<Event>, es2: seq<Event>)
    requires StrictlySorted(all)
    requires Legal(EMPTY, window, es1) && FairRun(all, window, EMPTY, SharedRun(es1))
    requires Legal(EMPTY, window, es2) && FairRun(all, window, EMPTY, SharedRun(es2))
    ensures var l1 := SharedAll(Run(EMPTY, window, es1).executed);
      var l2 := SharedAll(Run(EMPTY, window, es2).executed);
      Prefix(l1, l2) || Prefix(l2, l1)
  {
    assert SharedMgr(EMPTY) == EMPTY;
    SharedRuns(EMPTY, window, es1);
    SharedRuns(EMPTY, window, es2);
    ReplicasAgree(all, window, SharedRun(es1), SharedRun(es2));
  }
}
