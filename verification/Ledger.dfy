/** What the metadata manager does to its ledger, execution queue and log, step by step.  One
    step is one checkout, one turn of the aging loop, one pass over the ledger, or one drain. */
module Ledger {
  import opened Proposals

  const WORD := 0x1_0000_0000_0000_0000

  /** `now - time` on unsigned 64-bit words. */
  function Elapsed(now: nat, time: nat): (d: nat)
    ensures now < WORD && time <= now ==> d == now - time
  {
    (now - time) % WORD
  }

  predicate Aged(p: Proposal, now: nat, window: nat) {
    Elapsed(now, p.time) > window
  }

  /** A record stamped ahead of the clock ages at once, unless it is ahead by nearly the whole word:
      the subtraction wraps. */
  lemma AheadOfClock(p: Proposal, now: nat, window: nat)
    requires now < p.time < WORD
    ensures Aged(p, now, window) <==> p.time - now < WORD - window
  {
    assert now - p.time == -1 * WORD + (WORD - (p.time - now));
  }

  datatype Mgr = Mgr(ledger: seq<Proposal>, exec: seq<Proposal>, executed: seq<Proposal>)

  /** `Pass` carries one clock reading per ledger node: the callback reads the clock itself. */
  datatype Event =
    | CheckOut(ps: seq<Proposal>)
    | Age(now: nat)
    | Pass(nows: seq<nat>)
    | Execute

  /** Of the first `i` records, those a pass moves to the execution queue (`aged`) or leaves in
      the ledger (not `aged`). */
  function Picked(s: seq<Proposal>, nows: seq<nat>, window: nat, aged: bool, i: nat): seq<Proposal>
    requires i <= |s| && i <= |nows|
  {
    if i == 0 then []
    else
      Picked(s, nows, window, aged, i - 1)
        + if Aged(s[i - 1], nows[i - 1], window) == aged then [s[i - 1]] else []
  }

  predicate Ready(m: Mgr, e: Event) {
    e.Pass? ==> |e.nows| == |m.ledger|
  }

  ghost function Step(m: Mgr, window: nat, e: Event): (m': Mgr)
    requires Ready(m, e)
  {
    match e
    case CheckOut(ps) => m.(ledger := m.ledger + ps)
    case Age(now) =>
      if m.ledger == [] then m
      else
        var k := FirstOldest(m.ledger);
        if Aged(m.ledger[k], now, window)
        then m.(ledger := RemoveAt(m.ledger, k), exec := m.exec + [m.ledger[k]])
        else m
    case Pass(nows) =>
      m.(ledger := Picked(m.ledger, nows, window, false, |nows|),
         exec := m.exec + Picked(m.ledger, nows, window, true, |nows|))
    case Execute => m.(exec := [], executed := m.executed + Drain(m.exec))
  }

  ghost predicate Legal(m: Mgr, window: nat, es: seq<Event>)
    decreases |es|, 0
  {
    es == [] ||
    var front := es[..|es| - 1];
    Legal(m, window, front) && Ready(Run(m, window, front), es[|es| - 1])
  }

  ghost function Run(m: Mgr, window: nat, es: seq<Event>): Mgr
    requires Legal(m, window, es)
    decreases |es|, 1
  {
    if es == [] then m
    else Step(Run(m, window, es[..|es| - 1]), window, es[|es| - 1])
  }

  lemma OneMore(m: Mgr, window: nat, es: seq<Event>, e: Event)
    requires Legal(m, window, es) && Ready(Run(m, window, es), e)
    ensures Legal(m, window, es + [e])
    ensures Run(m, window, es + [e]) == Step(Run(m, window, es), window, e)
  {
    assert (es + [e])[..|es|] == es;
  }

  // ---- conservation ----

  /** Every record the manager holds or has executed. */
  function Holdings(m: Mgr): multiset<Proposal> {
    multiset(m.ledger) + multiset(m.exec) + multiset(m.executed)
  }

  function Incoming(e: Event): multiset<Proposal> {
    if e.CheckOut? then multiset(e.ps) else multiset{}
  }

  function AllIncoming(es: seq<Event>): multiset<Proposal> {
    if es == [] then multiset{} else AllIncoming(es[..|es| - 1]) + Incoming(es[|es| - 1])
  }

  lemma AddOne(s: seq<Proposal>, x: Proposal)
    ensures multiset(s + [x]) == multiset(s) + multiset{x}
  {
  }

  lemma AddToOneHalf(
      all: seq<Proposal>, here: seq<Proposal>, there: seq<Proposal>, x: Proposal)
    requires multiset(all) == multiset(here) + multiset(there)
    ensures multiset(all + [x]) == multiset(here + [x]) + multiset(there)
  {
    AddOne(all, x);
    AddOne(here, x);
  }

  lemma PickOne(s: seq<Proposal>, nows: seq<nat>, window: nat, i: nat)
    requires 0 < i <= |s| && i <= |nows|
    ensures s[..i] == s[..i - 1] + [s[i - 1]]
    ensures var aged := Aged(s[i - 1], nows[i - 1], window);
      && Picked(s, nows, window, aged, i) == Picked(s, nows, window, aged, i - 1) + [s[i - 1]]
      && Picked(s, nows, window, !aged, i) == Picked(s, nows, window, !aged, i - 1)
  {
  }

  lemma {:induction false} PassSplits(
      s: seq<Proposal>, nows: seq<nat>, window: nat, i: nat, aged: bool)
    requires i <= |s| && i <= |nows|
    ensures multiset(s[..i]) ==
      multiset(Picked(s, nows, window, aged, i)) + multiset(Picked(s, nows, window, !aged, i))
  {
    if i > 0 {
      var here := Aged(s[i - 1], nows[i - 1], window);
      PassSplits(s, nows, window, i - 1, here);
      PickOne(s, nows, window, i);
      AddToOneHalf(
        s[..i - 1], Picked(s, nows, window, here, i - 1), Picked(s, nows, window, !here, i - 1), s[i - 1]);
    }
  }

  lemma AgeConserves(m: Mgr, window: nat, now: nat)
    ensures Holdings(Step(m, window, Age(now))) == Holdings(m)
  {
    if m.ledger != [] {
      var k := FirstOldest(m.ledger);
      RemoveAtMultiset(m.ledger, k);
      assert multiset(m.exec + [m.ledger[k]]) == multiset(m.exec) + multiset{m.ledger[k]};
    }
  }

  lemma PassConserves(m: Mgr, window: nat, nows: seq<nat>)
    requires |nows| == |m.ledger|
    ensures Holdings(Step(m, window, Pass(nows))) == Holdings(m)
  {
    PassSplits(m.ledger, nows, window, |nows|, false);
    assert m.ledger[..|nows|] == m.ledger;
    var moved := Picked(m.ledger, nows, window, true, |nows|);
    assert multiset(m.exec + moved) == multiset(m.exec) + multiset(moved);
  }

  lemma ExecuteConserves(m: Mgr, window: nat)
    ensures Holdings(Step(m, window, Execute)) == Holdings(m)
  {
    DrainPermutes(m.exec);
    var all := multiset(m.executed + Drain(m.exec));
    assert all == multiset(m.executed) + multiset(Drain(m.exec));
  }

  lemma StepConserves(m: Mgr, window: nat, e: Event)
    requires Ready(m, e)
    ensures Holdings(Step(m, window, e)) == Holdings(m) + Incoming(e)
  {
    match e
    case CheckOut(ps) => assert multiset(m.ledger + ps) == multiset(m.ledger) + multiset(ps);
    case Age(now) => AgeConserves(m, window, now);
    case Pass(nows) => PassConserves(m, window, nows);
    case Execute => ExecuteConserves(m, window);
  }

  /** Over any run nothing is lost or doubled: what came in is in the ledger, queued, or executed. */
  lemma {:induction false} RunConserves(m: Mgr, window: nat, es: seq<Event>)
    requires Legal(m, window, es)
    ensures Holdings(Run(m, window, es)) == Holdings(m) + AllIncoming(es)
    decreases |es|
  {
    if es != [] {
      var front := es[..|es| - 1];
      RunConserves(m, window, front);
      StepConserves(Run(m, window, front), window, es[|es| - 1]);
    }
  }

  // ---- a pass is a stable partition ----

  /** `part` lists the records of `s` at the positions `at`. */
  ghost predicate Lists(part: seq<Proposal>, s: seq<Proposal>, at: seq<nat>) {
    && |part| == |at|
    && (forall j | 0 <= j < |at| :: at[j] < |s| && part[j] == s[at[j]])
  }

  ghost predicate Increasing(at: seq<nat>) {
    forall i, j | 0 <= i < j < |at| :: at[i] < at[j]
  }

  /** The pass moves exactly the aged records, and both halves keep the queue order. */
  lemma {:induction false} PassIsStablePartition(
      s: seq<Proposal>, nows: seq<nat>, window: nat, aged: bool, i: nat) returns (at: seq<nat>)
    requires i <= |s| && i <= |nows|
    ensures Lists(Picked(s, nows, window, aged, i), s, at) && Increasing(at)
    ensures forall x: nat :: x in at <==> x < i && Aged(s[x], nows[x], window) == aged
  {
    if i == 0 {
      at := [];
    } else {
      var before := PassIsStablePartition(s, nows, window, aged, i - 1);
      if Aged(s[i - 1], nows[i - 1], window) == aged {
        assert forall j | 0 <= j < |before| :: before[j] in before;
        at := before + [i - 1];
      } else {
        at := before;
      }
    }
  }

  // ---- the aging loop ----

  /** One turn's clock reading and what the checkout after it delivers. */
  datatype Tick = Tick(now: nat, arrivals: seq<Proposal>)

  /** The first `i` turns of the aging loop, as steps. */
  function Turns(env: seq<Tick>, i: nat): seq<Event>
    requires i <= |env|
  {
    if i == 0 then []
    else Turns(env, i - 1) + [Age(env[i - 1].now), CheckOut(env[i - 1].arrivals)]
  }

  ghost function AfterTurns(m: Mgr, window: nat, env: seq<Tick>, i: nat): Mgr
    requires i <= |env|
  {
    if i == 0 then m
    else
      var m1 := Step(AfterTurns(m, window, env, i - 1), window, Age(env[i - 1].now));
      Step(m1, window, CheckOut(env[i - 1].arrivals))
  }

  /** The aging loop is a run of the step system. */
  lemma {:induction false} TurnsAreRun(m: Mgr, window: nat, env: seq<Tick>, i: nat)
    requires i <= |env|
    ensures Legal(m, window, Turns(env, i))
    ensures Run(m, window, Turns(env, i)) == AfterTurns(m, window, env, i)
  {
    if i > 0 {
      var es, tick := Turns(env, i - 1), env[i - 1];
      TurnsAreRun(m, window, env, i - 1);
      OneMore(m, window, es, Age(tick.now));
      OneMore(m, window, es + [Age(tick.now)], CheckOut(tick.arrivals));
      assert Turns(env, i) == es + [Age(tick.now)] + [CheckOut(tick.arrivals)];
    }
  }

  /** What arrives in a turn is not touched before the next: it ends the ledger, in order of arrival. */
  lemma ArrivalsWaitATurn(m: Mgr, window: nat, env: seq<Tick>, i: nat)
    requires 0 < i <= |env|
    ensures var l, late := AfterTurns(m, window, env, i).ledger, env[i - 1].arrivals;
      |late| <= |l| && l[|l| - |late|..] == late
  {
    var before := Step(AfterTurns(m, window, env, i - 1), window, Age(env[i - 1].now)).ledger;
    assert AfterTurns(m, window, env, i).ledger == before + env[i - 1].arrivals;
  }

  /** Each late turn without arrivals takes one record out of the ledger. */
  lemma {:induction false} LateTurnsShrink(m: Mgr, window: nat, env: seq<Tick>, i: nat)
    requires i <= |env| && i <= |m.ledger|
    requires forall j | 0 <= j < i :: env[j].arrivals == []
    requires forall j, p | 0 <= j < i && p in m.ledger :: Aged(p, env[j].now, window)
    ensures var l := AfterTurns(m, window, env, i).ledger;
      |l| == |m.ledger| - i && forall p | p in l :: p in m.ledger
  {
    if i > 0 {
      LateTurnsShrink(m, window, env, i - 1);
      var l := AfterTurns(m, window, env, i - 1).ledger;
      var k := FirstOldest(l);
      assert l[k] in m.ledger && Aged(l[k], env[i - 1].now, window);
      assert AfterTurns(m, window, env, i).ledger == RemoveAt(l, k) + [];
    }
  }

  /** The aging loop ends: once nothing arrives and every record is past the window, as many turns
      as the ledger has records empty it. */
  lemma LateTurnsFinish(m: Mgr, window: nat, env: seq<Tick>)
    requires |m.ledger| <= |env|
    requires forall j | 0 <= j < |m.ledger| :: env[j].arrivals == []
    requires forall j, p | 0 <= j < |m.ledger| && p in m.ledger :: Aged(p, env[j].now, window)
    ensures AfterTurns(m, window, env, |m.ledger|).ledger == []
  {
    LateTurnsShrink(m, window, env, |m.ledger|);
  }

  lemma {:induction false} RunSplits(m: Mgr, window: nat, a: seq<Event>, b: seq<Event>)
    requires Legal(m, window, a) && Legal(Run(m, window, a), window, b)
    ensures Legal(m, window, a + b)
    ensures Run(m, window, a + b) == Run(Run(m, window, a), window, b)
    decreases |b|
  {
    if b == [] {
      assert a + b == a;
    } else {
      var front, e := b[..|b| - 1], b[|b| - 1];
      RunSplits(m, window, a, front);
      OneMore(m, window, a + front, e);
      assert a + b == a + front + [e];
    }
  }
}
