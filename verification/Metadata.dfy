/** The metadata manager itself: it owns the ledger and the execution manager and moves queue
    nodes between them.  What the network delivers and what the clock reads are parameters. */
module Metadata {
  import opened Proposals
  import opened GenQueue
  import opened Managers
  import opened Ledger

  function Flatten(batches: seq<seq<Proposal>>, i: nat): seq<Proposal>
    requires i <= |batches|
  {
    if i == 0 then [] else Flatten(batches, i - 1) + batches[i - 1]
  }

  function Arrivals(env: seq<Tick>, i: nat): seq<Proposal>
    requires i <= |env|
  {
    if i == 0 then [] else Arrivals(env, i - 1) + env[i - 1].arrivals
  }

  /** The submitter's own copy, encoded after the verdict. */
  function OwnCopy(p: Proposal, state: ProposalState): Proposal {
    p.(state := state, isLocal := 1)
  }

  lemma CheckOutTwice(m: Mgr, window: nat, a: seq<Proposal>, b: seq<Proposal>)
    ensures Step(Step(m, window, CheckOut(a)), window, CheckOut(b)) == Step(m, window, CheckOut(a + b))
  {
    assert m.ledger + a + b == m.ledger + (a + b);
  }

  lemma CheckOutNothing(m: Mgr, window: nat)
    ensures Step(m, window, CheckOut([])) == m
  {
    assert m.ledger + [] == m.ledger;
  }

  /** The ledger is not empty before any of the first `n` turns. */
  ghost predicate BusyFor(m: Mgr, window: nat, env: seq<Tick>, n: nat)
    requires n <= |env|
  {
    forall j | 0 <= j < n :: AfterTurns(m, window, env, j).ledger != []
  }

  lemma BusyMore(m: Mgr, window: nat, env: seq<Tick>, n: nat)
    requires n < |env| && BusyFor(m, window, env, n) && AfterTurns(m, window, env, n).ledger != []
    ensures BusyFor(m, window, env, n + 1)
  {
  }

  /** The aging loop takes no more turns than the ledger holds records, once nothing arrives and all
      are past the window. */
  lemma LateTurnsSuffice(m: Mgr, window: nat, env: seq<Tick>, turns: nat)
    requires turns <= |env| && BusyFor(m, window, env, turns) && |m.ledger| <= |env|
    requires forall j | 0 <= j < |m.ledger| :: env[j].arrivals == []
    requires forall j, p | 0 <= j < |m.ledger| && p in m.ledger :: Aged(p, env[j].now, window)
    ensures turns <= |m.ledger| && AfterTurns(m, window, env, |m.ledger|).ledger == []
  {
    LateTurnsFinish(m, window, env);
  }

  /** A pass under way: the manager, and where the next node to visit stands. */
  datatype Cursor = Cursor(m: Mgr, at: nat)

  function Visit(c: Cursor, window: nat, now: nat): Cursor {
    if c.at < |c.m.ledger| && Aged(c.m.ledger[c.at], now, window)
    then
      Cursor(c.m.(ledger := RemoveAt(c.m.ledger, c.at), exec := c.m.exec + [c.m.ledger[c.at]]), c.at)
    else Cursor(c.m, c.at + 1)
  }

  /** A pass after its first `i` callbacks. */
  function AfterVisits(m: Mgr, window: nat, nows: seq<nat>, i: nat): Cursor
    requires i <= |nows|
  {
    if i == 0 then Cursor(m, 0) else Visit(AfterVisits(m, window, nows, i - 1), window, nows[i - 1])
  }

  /** Where the visited part ends, one visit takes the next record or steps over it. */
  lemma VisitSplits(m: Mgr, window: nat, now: nat, kept: seq<Proposal>, x: Proposal, rest: seq<Proposal>)
    requires m.ledger == kept + ([x] + rest)
    ensures Visit(Cursor(m, |kept|), window, now) ==
      if Aged(x, now, window) then Cursor(m.(ledger := kept + rest, exec := m.exec + [x]), |kept|)
      else Cursor(m.(ledger := kept + [x] + rest), |kept + [x]|)
  {
    assert m.ledger[|kept|] == x;
    assert RemoveAt(m.ledger, |kept|) == kept + rest;
    assert m.ledger == kept + [x] + rest;
  }

  /** What a pass should have become after `i` callbacks. */
  function SoFar(m: Mgr, window: nat, nows: seq<nat>, i: nat): Cursor
    requires i <= |m.ledger| == |nows|
  {
    var kept := Picked(m.ledger, nows, window, false, i);
    Cursor(m.(ledger := kept + m.ledger[i..], exec := m.exec + Picked(m.ledger, nows, window, true, i)), |kept|)
  }

  lemma VisitMore(m: Mgr, window: nat, nows: seq<nat>, i: nat)
    requires 0 < i <= |m.ledger| == |nows|
    ensures Visit(SoFar(m, window, nows, i - 1), window, nows[i - 1]) == SoFar(m, window, nows, i)
  {
    var s, x := m.ledger, m.ledger[i - 1];
    var kept, moved := Picked(s, nows, window, false, i - 1), Picked(s, nows, window, true, i - 1);
    assert s[i - 1..] == [x] + s[i..];
    VisitSplits(SoFar(m, window, nows, i - 1).m, window, nows[i - 1], kept, x, s[i..]);
    PickOne(s, nows, window, i);
    assert m.exec + moved + [x] == m.exec + (moved + [x]);
  }

  /** The visited part of the ledger is the kept half; the rest is untouched. */
  lemma {:induction false} VisitsSoFar(m: Mgr, window: nat, nows: seq<nat>, i: nat)
    requires i <= |m.ledger| == |nows|
    ensures AfterVisits(m, window, nows, i) == SoFar(m, window, nows, i)
  {
    if i == 0 {
      assert [] + m.ledger[0..] == m.ledger && m.exec + [] == m.exec;
    } else {
      VisitsSoFar(m, window, nows, i - 1);
      VisitMore(m, window, nows, i);
    }
  }

  lemma VisitsArePass(m: Mgr, window: nat, nows: seq<nat>)
    requires |m.ledger| == |nows|
    ensures AfterVisits(m, window, nows, |nows|).m == Step(m, window, Pass(nows))
  {
    VisitsSoFar(m, window, nows, |nows|);
    var kept := Picked(m.ledger, nows, window, false, |nows|);
    assert kept + m.ledger[|nows|..] == kept;
  }

  // ---- a whole submission ----

  /** What a submitter does from the voting loop to the drain: checkouts until the verdict, its own
      copy (if approved), checkouts while the copy ages, the aging loop, the drain. */
  ghost function AfterSubmission(
      m: Mgr, window: nat, own: seq<Proposal>, before: seq<Proposal>, during: seq<Proposal>,
      first: seq<Proposal>, env: seq<Tick>, turns: nat): Mgr
    requires turns <= |env|
  {
    var m1 := Step(m, window, CheckOut(before));
    var m2 := Step(Step(m1, window, CheckOut(own)), window, CheckOut(during));
    Step(AfterTurns(Step(m2, window, CheckOut(first)), window, env, turns), window, Execute)
  }

  lemma IncomingMore(es: seq<Event>, e: Event)
    ensures AllIncoming(es + [e]) == AllIncoming(es) + Incoming(e)
  {
    assert (es + [e])[..|es|] == es;
  }

  lemma TurnBrings(es: seq<Event>, tick: Tick)
    ensures AllIncoming(es + [Age(tick.now), CheckOut(tick.arrivals)]) ==
      AllIncoming(es) + multiset(tick.arrivals)
  {
    var one := es + [Age(tick.now)];
    IncomingMore(es, Age(tick.now));
    IncomingMore(one, CheckOut(tick.arrivals));
    assert one + [CheckOut(tick.arrivals)] == es + [Age(tick.now), CheckOut(tick.arrivals)];
  }

  lemma JoinMultisets(all: multiset<Proposal>, a: seq<Proposal>, b: seq<Proposal>)
    requires all == multiset(a)
    ensures all + multiset(b) == multiset(a + b)
  {
  }

  /** What the checkouts between turns bring. */
  lemma {:induction false} TurnsBring(env: seq<Tick>, i: nat)
    requires i <= |env|
    ensures AllIncoming(Turns(env, i)) == multiset(Arrivals(env, i))
  {
    if i > 0 {
      TurnsBring(env, i - 1);
      TurnBrings(Turns(env, i - 1), env[i - 1]);
      JoinMultisets(AllIncoming(Turns(env, i - 1)), Arrivals(env, i - 1), env[i - 1].arrivals);
    }
  }

  lemma TurnsConserve(m: Mgr, window: nat, env: seq<Tick>, i: nat)
    requires i <= |env|
    ensures Holdings(AfterTurns(m, window, env, i)) == Holdings(m) + multiset(Arrivals(env, i))
  {
    TurnsAreRun(m, window, env, i);
    RunConserves(m, window, Turns(env, i));
    TurnsBring(env, i);
  }

  /** Everything held before, checked out or submitted has been executed, and nothing else. */
  lemma SubmissionRunsAll(
      m: Mgr, window: nat, own: seq<Proposal>, before: seq<Proposal>, during: seq<Proposal>,
      first: seq<Proposal>, env: seq<Tick>, turns: nat)
    requires turns <= |env|
    requires AfterSubmission(m, window, own, before, during, first, env, turns).ledger == []
    ensures multiset(AfterSubmission(m, window, own, before, during, first, env, turns).executed) ==
      Holdings(m) + multiset(before) + multiset(own) + multiset(during) + multiset(first)
        + multiset(Arrivals(env, turns))
  {
    var m1 := Step(m, window, CheckOut(before));
    var m2 := Step(m1, window, CheckOut(own));
    var m3 := Step(m2, window, CheckOut(during));
    var m4 := Step(m3, window, CheckOut(first));
    StepConserves(m, window, CheckOut(before));
    StepConserves(m1, window, CheckOut(own));
    StepConserves(m2, window, CheckOut(during));
    StepConserves(m3, window, CheckOut(first));
    TurnsConserve(m4, window, env, turns);
    var m5 := AfterTurns(m4, window, env, turns);
    StepConserves(m5, window, Execute);
    OnlyExecuted(Step(m5, window, Execute));
  }

  /** A submission is a run of the step system, so the agreement results apply to it. */
  lemma SubmissionIsRun(
      m: Mgr, window: nat, own: seq<Proposal>, before: seq<Proposal>, during: seq<Proposal>,
      first: seq<Proposal>, env: seq<Tick>, turns: nat)
    requires turns <= |env|
    ensures var es := [CheckOut(before), CheckOut(own), CheckOut(during), CheckOut(first)]
        + Turns(env, turns) + [Execute];
      Legal(m, window, es)
        && Run(m, window, es) == AfterSubmission(m, window, own, before, during, first, env, turns)
  {
    var a, b := [CheckOut(before)], [CheckOut(before), CheckOut(own)];
    var c := b + [CheckOut(during)];
    OneMore(m, window, [], CheckOut(before));
    assert [] + [CheckOut(before)] == a && a + [CheckOut(own)] == b;
    OneMore(m, window, a, CheckOut(own));
    OneMore(m, window, b, CheckOut(during));
    OneMore(m, window, c, CheckOut(first));
    var d := c + [CheckOut(first)];
    assert d == [CheckOut(before), CheckOut(own), CheckOut(during), CheckOut(first)];
    TurnsAreRun(Run(m, window, d), window, env, turns);
    RunSplits(m, window, d, Turns(env, turns));
    OneMore(m, window, d + Turns(env, turns), Execute);
  }

  lemma OnlyExecuted(m: Mgr)
    requires m.ledger == [] && m.exec == []
    ensures Holdings(m) == multiset(m.executed)
  {
  }

  lemma EmptyExecute(m: Mgr, window: nat)
    requires m.exec == []
    ensures Step(m, window, Execute) == m
  {
  }

  class MetadataManager {
    const ledger: Queue
    const em: ExecutionManager
    const window: nat

    /** Everything the manager may change, its queue nodes included. */
    ghost var owned: set<object>

    ghost predicate Valid()
      reads this, owned
    {
      && this in owned && ledger in owned && em in owned && em.queue in owned
      && ledger.repr <= owned && em.queue.repr <= owned
      && ledger.Valid() && em.queue.Valid()
      && ledger != em.queue && ledger.repr !! em.queue.repr
      && ledger.state == Active && em.queue.state == Active
    }

    ghost function View(): Mgr
      requires Valid()
      reads this, owned
    {
      Mgr(ledger.Contents(), em.queue.Contents(), em.executed)
    }

    /** MM_metadata_update_helper_init */
    constructor (window: nat)
      ensures this.window == window && Valid() && View() == Mgr([], [], [])
      ensures fresh(owned)
    {
      this.window := window;
      var lm := new Queue();
      var em := new ExecutionManager();
      ledger, this.em := lm, em;
      owned := {this, lm, em, em.queue};
    }

    /** LM_add_ledger */
    method AddLedger(node: Node)
      requires Valid() && node !in owned
      modifies owned, node
      ensures Valid() && owned == old(owned) + {node}
      ensures View() == old(View()).(ledger := old(View()).ledger + [old(node.data)])
    {
      ledger.Append(node);
      owned := owned + {node};
    }

    /** gen_queue_node_new followed by LM_add_ledger. */
    method AddProposal(p: Proposal)
      requires Valid()
      modifies owned
      ensures Valid() && fresh(owned - old(owned))
      ensures View() == old(View()).(ledger := old(View()).ledger + [p])
    {
      var node := new Node(p);
      AddLedger(node);
    }

    /** _checkout_proposal_make_progress: everything the network has ready goes to the ledger. */
    method CheckoutProposals(ps: seq<Proposal>)
      requires Valid()
      modifies owned
      ensures Valid() && fresh(owned - old(owned))
      ensures View() == Step(old(View()), window, CheckOut(ps))
    {
      ghost var m := View();
      CheckOutNothing(m, window);
      for i := 0 to |ps|
        invariant Valid() && fresh(owned - old(owned))
        invariant View() == Step(m, window, CheckOut(ps[..i]))
      {
        AddProposal(ps[i]);
        CheckOutTwice(m, window, ps[..i], [ps[i]]);
        assert ps[..i + 1] == ps[..i] + [ps[i]];
      }
      assert ps[..|ps|] == ps;
    }

    /** LM_remove_ledger */
    method RemoveLedger(node: Node, ghost k: nat)
      requires Valid() && k < |ledger.nodes| && ledger.nodes[k] == node
      modifies ledger`head, ledger`tail, ledger`nodeCnt, ledger`nodes, ledger`repr
      modifies ledger.repr`prev, ledger.repr`next
      ensures Valid() && node in owned && node !in ledger.repr && node !in em.queue.repr
      ensures ledger.nodes == RemoveAt(old(ledger.nodes), k)
      ensures View() == old(View()).(ledger := RemoveAt(old(ledger.Contents()), k))
    {
      ledger.Remove(node, k);
    }

    /** EM_add_proposal */
    method AddExecution(node: Node)
      requires Valid() && node in owned && node !in ledger.repr && node !in em.queue.repr
      modifies em.queue`head, em.queue`tail, em.queue`nodeCnt, em.queue`nodes, em.queue`repr
      modifies node`prev, node`next, em.queue.repr`next
      ensures Valid()
      ensures View() == old(View()).(exec := old(em.queue.Contents()) + [old(node.data)])
    {
      em.queue.Append(node);
    }

    /** LM_remove_ledger followed by EM_add_proposal. */
    method MoveToExecution(node: Node, ghost k: nat)
      requires Valid() && k < |ledger.nodes| && ledger.nodes[k] == node
      modifies owned
      ensures Valid() && owned == old(owned)
      ensures ledger.nodes == RemoveAt(old(ledger.nodes), k)
      ensures View() == old(View()).(
        ledger := RemoveAt(old(ledger.Contents()), k),
        exec := old(em.queue.Contents()) + [old(node.data)])
    {
      RemoveLedger(node, k);
      AddExecution(node);
    }

    /** One turn of the MM_ledger_process loop, before its checkout. */
    method AgeOldest(now: nat)
      requires Valid() && ledger.nodes != []
      modifies owned
      ensures Valid() && owned == old(owned)
      ensures View() == Step(old(View()), window, Age(now))
    {
      var oldest, time, k := GetOldestRecord(ledger);
      FirstOldestUnique(ledger.Contents(), k, FirstOldest(ledger.Contents()));
      if Elapsed(now, time) > window {
        MoveToExecution(oldest, k);
      }
    }

    /** A whole turn: the aging step and the checkout after it. */
    method Turn(tick: Tick)
      requires Valid() && ledger.nodes != []
      modifies owned
      ensures Valid() && fresh(owned - old(owned))
      ensures View() ==
        Step(Step(old(View()), window, Age(tick.now)), window, CheckOut(tick.arrivals))
    {
      AgeOldest(tick.now);
      CheckoutProposals(tick.arrivals);
    }

    /** The next turn of `env`. */
    method NextTurn(ghost m: Mgr, env: seq<Tick>, i: nat)
      requires Valid() && ledger.nodes != [] && i < |env|
      requires View() == AfterTurns(m, window, env, i) && BusyFor(m, window, env, i)
      modifies owned
      ensures Valid() && fresh(owned - old(owned))
      ensures View() == AfterTurns(m, window, env, i + 1) && BusyFor(m, window, env, i + 1)
    {
      BusyMore(m, window, env, i);
      Turn(env[i]);
    }

    /** The loop of MM_ledger_process: turns until the ledger is empty or `env` ends. */
    method AgeUntilEmpty(env: seq<Tick>) returns (turns: nat)
      requires Valid()
      modifies owned
      ensures Valid() && fresh(owned - old(owned)) && turns <= |env|
      ensures View() == AfterTurns(old(View()), window, env, turns)
      ensures BusyFor(old(View()), window, env, turns)
      ensures turns == |env| || ledger.nodes == []
    {
      ghost var m := View();
      turns := 0;
      var count := ledger.nodeCnt;
      while count > 0 && turns < |env|
        invariant Valid() && fresh(owned - old(owned)) && turns <= |env| && count == ledger.nodeCnt
        invariant View() == AfterTurns(m, window, env, turns) && BusyFor(m, window, env, turns)
        decreases |env| - turns
      {
        NextTurn(m, env, turns);
        count := ledger.nodeCnt;
        turns := turns + 1;
      }
    }

    /** MM_ledger_process: returns once the ledger is empty (`done`). */
    method LedgerProcess(first: seq<Proposal>, env: seq<Tick>) returns (done: bool, turns: nat)
      requires Valid()
      modifies owned
      ensures Valid() && fresh(owned - old(owned)) && turns <= |env|
      ensures var m := Step(old(View()), window, CheckOut(first));
        View() == AfterTurns(m, window, env, turns) && BusyFor(m, window, env, turns)
      ensures if done then View().ledger == [] else turns == |env| && View().ledger != []
    {
      CheckoutProposals(first);
      turns := AgeUntilEmpty(env);
      done := ledger.nodeCnt == 0;
    }

    /** MM_make_progress_cb on the node at position `k`; its successor is then at `k1`. */
    method ProgressCallback(node: Node, ghost k: nat, now: nat) returns (ghost k1: nat)
      requires Valid() && k < |ledger.nodes| && ledger.nodes[k] == node
      modifies owned
      ensures Valid() && owned == old(owned)
      ensures Cursor(View(), k1) == Visit(Cursor(old(View()), k), window, now)
      ensures k1 <= |ledger.nodes| && |ledger.nodes| - k1 == |old(ledger.nodes)| - k - 1
      ensures old(node.next) == if k1 < |ledger.nodes| then ledger.nodes[k1] else null
    {
      if Elapsed(now, node.data.time) > window {
        MoveToExecution(node, k);
        k1 := k;
      } else {
        k1 := k + 1;
      }
    }

    /** gen_queue_iterate over the ledger: the successor is read before the callback may unlink
        the node. */
    method IterateLedger(nows: seq<nat>)
      requires Valid() && |nows| == |ledger.nodes|
      modifies owned
      ensures Valid() && owned == old(owned)
      ensures View() == Step(old(View()), window, Pass(nows))
    {
      ghost var m, k: nat := View(), 0;
      VisitsArePass(m, window, nows);
      var cur, i := ledger.head, 0;
      while cur != null
        invariant Valid() && owned == old(owned) && i <= |nows|
        invariant k <= |ledger.nodes| && |ledger.nodes| - k == |nows| - i
        invariant cur == if k < |ledger.nodes| then ledger.nodes[k] else null
        invariant Cursor(View(), k) == AfterVisits(m, window, nows, i)
        decreases |nows| - i
      {
        var next := cur.next;
        k := ProgressCallback(cur, k, nows[i]);
        cur, i := next, i + 1;
      }
    }

    /** The drain, skipped on an empty queue. */
    method DrainQueue()
      requires Valid()
      modifies owned
      ensures Valid() && owned == old(owned)
      ensures View() == Step(old(View()), window, Execute)
    {
      if em.queue.nodeCnt > 0 {
        em.ExecuteAll();
      } else {
        EmptyExecute(View(), window);
      }
    }

    /** MM_make_progress: one non-blocking pass, then a drain. */
    method MakeProgress(arrivals: seq<Proposal>, nows: seq<nat>)
      requires Valid() && |nows| == |ledger.nodes| + |arrivals|
      modifies owned
      ensures Valid() && fresh(owned - old(owned))
      ensures View() ==
        Step(Step(Step(old(View()), window, CheckOut(arrivals)), window, Pass(nows)), window, Execute)
    {
      CheckoutProposals(arrivals);
      ghost var m := View();
      if ledger.nodeCnt > 0 {
        IterateLedger(nows);
      } else {
        VisitsArePass(m, window, nows);
      }
      DrainQueue();
    }

    /** The voting loop of MM_submit_proposal: one checkout per poll until the verdict. */
    method PollVerdict(polls: seq<seq<Proposal>>)
      requires Valid()
      modifies owned
      ensures Valid() && fresh(owned - old(owned))
      ensures View() == Step(old(View()), window, CheckOut(Flatten(polls, |polls|)))
    {
      ghost var m := View();
      CheckOutNothing(m, window);
      for i := 0 to |polls|
        invariant Valid() && fresh(owned - old(owned))
        invariant View() == Step(m, window, CheckOut(Flatten(polls, i)))
      {
        CheckoutProposals(polls[i]);
        CheckOutTwice(m, window, Flatten(polls, i), polls[i]);
      }
    }

    /** The aging loop of MM_submit_proposal: ends at the first reading `time` plus the window old
        (`aged`), or with `env`. */
    method AgeOwn(time: nat, env: seq<Tick>) returns (aged: bool, n: nat)
      requires Valid()
      modifies owned
      ensures Valid() && fresh(owned - old(owned)) && n <= |env|
      ensures View() == Step(old(View()), window, CheckOut(Arrivals(env, n)))
      ensures forall j | 0 <= j < n :: Elapsed(env[j].now, time) < window
      ensures if aged then n < |env| && Elapsed(env[n].now, time) >= window else n == |env|
    {
      ghost var m := View();
      CheckOutNothing(m, window);
      n := 0;
      while n < |env| && Elapsed(env[n].now, time) < window
        invariant Valid() && fresh(owned - old(owned)) && n <= |env|
        invariant View() == Step(m, window, CheckOut(Arrivals(env, n)))
        invariant forall j | 0 <= j < n :: Elapsed(env[j].now, time) < window
      {
        CheckoutProposals(env[n].arrivals);
        CheckOutTwice(m, window, Arrivals(env, n), env[n].arrivals);
        n := n + 1;
      }
      aged := n < |env|;
    }

    /** Why a submission has not returned: the environment ended while the own copy was still younger
        than the window at every reading, or while the ledger still held something. */
    predicate StillWaiting(own: seq<Proposal>, aging: seq<Tick>, waited: nat, env: seq<Tick>, turns: nat,
                           ledger: seq<Proposal>)
    {
      || (own != [] && waited == |aging|
          && forall j | 0 <= j < |aging| :: Elapsed(aging[j].now, own[0].time) < window)
      || (turns == |env| && ledger != [])
    }

    /** What the submitter does on a yes; nothing happens when `own` is empty. */
    method AddAndAgeOwn(own: seq<Proposal>, aging: seq<Tick>) returns (aged: bool, waited: nat)
      requires Valid() && |own| <= 1
      modifies owned
      ensures Valid() && fresh(owned - old(owned)) && waited <= |aging|
      ensures View() ==
        Step(Step(old(View()), window, CheckOut(own)), window, CheckOut(Arrivals(aging, waited)))
      ensures own == [] ==> aged && waited == 0
      ensures own != [] ==>
        && (forall j | 0 <= j < waited :: Elapsed(aging[j].now, own[0].time) < window)
        && if aged then waited < |aging| && Elapsed(aging[waited].now, own[0].time) >= window
           else waited == |aging|
    {
      if own == [] {
        CheckOutNothing(View(), window);
        return true, 0;
      }
      CheckoutProposals(own);
      aged, waited := AgeOwn(own[0].time, aging);
    }

    /** MM_submit_proposal in regular mode, after its voting loop: `own` is the submitter's copy
        if the verdict was yes.  `done` means that the call returns. */
    method FinishSubmission(own: seq<Proposal>, aging: seq<Tick>, first: seq<Proposal>, env: seq<Tick>)
      returns (done: bool, waited: nat, turns: nat)
      requires Valid() && |own| <= 1
      modifies owned
      ensures Valid() && fresh(owned - old(owned)) && waited <= |aging| && turns <= |env|
      ensures done ==>
        && View() ==
          AfterSubmission(old(View()), window, own, [], Arrivals(aging, waited), first, env, turns)
        && View().ledger == [] && View().exec == []
      ensures done && own != [] ==>
        waited < |aging| && Elapsed(aging[waited].now, own[0].time) >= window
      ensures !done ==> StillWaiting(own, aging, waited, env, turns, View().ledger)
    {
      CheckOutNothing(View(), window);
      turns := 0;
      done, waited := AddAndAgeOwn(own, aging);
      if done {
        done, turns := LedgerProcess(first, env);
      }
      if done {
        ghost var m := View();
        assert Step(m, window, Execute).ledger == [] && Step(m, window, Execute).exec == [];
        DrainQueue();
      }
    }

    /** MM_submit_proposal in regular mode.  When it returns on a yes, the submitter's copy has
        been executed exactly once more than it was known before, and nothing is left waiting. */
    method SubmitProposal(
        p: Proposal, verdict: ProposalState, polls: seq<seq<Proposal>>,
        aging: seq<Tick>, first: seq<Proposal>, env: seq<Tick>)
      returns (ret: int, done: bool, waited: nat, turns: nat)
      requires Valid() && verdict != IN_PROGRESS
      modifies owned
      ensures Valid() && waited <= |aging| && turns <= |env|
      ensures ret == if verdict == APPROVED then 1 else 0
      ensures done ==> View().ledger == [] && View().exec == []
      ensures !done ==>
        StillWaiting(if verdict == APPROVED then [OwnCopy(p, IN_PROGRESS)] else [],
                     aging, waited, env, turns, View().ledger)
      ensures var own := if verdict == APPROVED then [OwnCopy(p, IN_PROGRESS)] else [];
        done ==> (multiset(View().executed) ==
          Holdings(old(View())) + multiset(Flatten(polls, |polls|)) + multiset(own)
            + multiset(Arrivals(aging, waited)) + multiset(first) + multiset(Arrivals(env, turns)))
    {
      ghost var m := View();
      PollVerdict(polls);
      var own := if verdict == APPROVED then [OwnCopy(p, IN_PROGRESS)] else [];
      done, waited, turns := FinishSubmission(own, aging, first, env);
      ret := if verdict == APPROVED then 1 else 0;
      if done {
        CheckOutNothing(Step(m, window, CheckOut(Flatten(polls, |polls|))), window);
        SubmissionRunsAll(
          m, window, own, Flatten(polls, |polls|), Arrivals(aging, waited), first, env, turns);
      }
    }

    /** MM_submit_proposal in broadcast mode: the copy enters the ledger and one pass is made. */
    method SubmitBcast(p: Proposal, arrivals: seq<Proposal>, nows: seq<nat>) returns (ret: int)
      requires Valid() && |nows| == |ledger.nodes| + 1 + |arrivals|
      modifies owned
      ensures Valid() && fresh(owned - old(owned)) && ret == 1
      ensures var m := Step(old(View()), window, CheckOut([OwnCopy(p, APPROVED)] + arrivals));
        View() == Step(Step(m, window, Pass(nows)), window, Execute)
    {
      ghost var m := View();
      AddProposal(OwnCopy(p, APPROVED));
      CheckOutTwice(m, window, [OwnCopy(p, APPROVED)], arrivals);
      MakeProgress(arrivals, nows);
      ret := 1;
    }
  }
}
