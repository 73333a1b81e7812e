/** The life of a message inside one progress engine: which queue holds it, when the application
    picks it up, when its memory is given back.  A message is its address; `mem` is what is
    allocated.  Whether the sends of a message have completed is up to the network. */
module Lifecycle {

  type Id = nat

  datatype Tag = BCAST | PROPOSAL | DECISION

  /** A received message was zeroed when allocated, so its `sendType` reads BCAST. */
  datatype Flags = Flags(sendType: Tag, pickupDone: bool, fwdDone: bool)

  /** `held` is what the application has picked up and not yet recycled.  The last six fields are
      history: what was received and what was sent under which tag, what completed, what became ready
      for pickup in which order, what was picked up and freed. */
  datatype Engine = Engine(
    wait: seq<Id>, both: seq<Id>, pickup: seq<Id>, mem: map<Id, Flags>, held: set<Id>, next: Id,
    received: set<Id>, sent: map<Id, Tag>, completed: set<Id>, ready: seq<Id>,
    picked: multiset<Id>, freed: multiset<Id>)

  const START := Engine([], [], [], map[], {}, 0, {}, map[], {}, [], multiset{}, multiset{})

  /** The queue with one node unlinked. */
  function Without(q: seq<Id>, id: Id): seq<Id> {
    if q == [] then []
    else if q[|q| - 1] == id then q[..|q| - 1]
    else Without(q[..|q| - 1], id) + [q[|q| - 1]]
  }

  lemma MinusPlus(m: multiset<Id>, id: Id, x: Id)
    requires x != id
    ensures m - multiset{id} + multiset{x} == m + multiset{x} - multiset{id}
  {
  }

  lemma PlusMinus(m: multiset<Id>, id: Id)
    ensures m + multiset{id} - multiset{id} == m
  {
  }

  lemma {:induction false} WithoutOne(q: seq<Id>, id: Id)
    ensures multiset(Without(q, id)) == multiset(q) - multiset{id}
  {
    if q != [] {
      var front, last := q[..|q| - 1], q[|q| - 1];
      assert q == front + [last];
      if last == id {
        PlusMinus(multiset(front), id);
      } else {
        WithoutOne(front, id);
        MinusPlus(multiset(front), id, last);
      }
    }
  }

  // ---- steps ----

  /** A broadcast arrives in a fresh buffer.  Ranks that forward it wait for their sends; the others
      are done at once. */
  function Receive(e: Engine, forwards: bool): Engine {
    var id := e.next;
    var f := Flags(BCAST, false, !forwards);
    var e1 := e.(mem := e.mem[id := f], next := id + 1, received := e.received + {id});
    if forwards then e1.(both := e.both + [id])
    else e1.(pickup := e.pickup + [id], completed := e.completed + {id}, ready := e.ready + [id])
  }

  /** RLO_bcast_gen queues everything it sends except decisions. */
  function Initiate(e: Engine, tag: Tag): Engine {
    var id := e.next;
    var e1 := e.(mem := e.mem[id := Flags(tag, true, false)], next := id + 1, sent := e.sent[id := tag]);
    if tag != DECISION then e1.(wait := e.wait + [id]) else e1
  }

  function Free(e: Engine, id: Id): Engine {
    e.(mem := e.mem - {id}, freed := e.freed + multiset{id})
  }

  /** The forwards of `id` have all completed. */
  function Complete(e: Engine, id: Id): Engine {
    if id in e.mem
    then e.(mem := e.mem[id := e.mem[id].(fwdDone := true)], completed := e.completed + {id})
    else e
  }

  /** One node of the wait-and-pickup queue under test. */
  function TestBoth(e: Engine, id: Id, done: bool): Engine {
    if id !in e.mem then e
    else if done then
      var e1 := Complete(e, id).(both := Without(e.both, id));
      if !e.mem[id].pickupDone then e1.(pickup := e1.pickup + [id], ready := e1.ready + [id]) else e1
    else if e.mem[id].pickupDone then
      e.(both := Without(e.both, id), wait := e.wait + [id])
    else e
  }

  /** One node of the wait queue under test. */
  function TestWait(e: Engine, id: Id, done: bool): Engine {
    if id !in e.mem then e
    else if done then
      var e1 := Complete(e, id).(wait := Without(e.wait, id));
      if e.mem[id].sendType == BCAST then Free(e1, id) else e1
    else e
  }

  /** The application takes `id`: from the wait-and-pickup queue it moves on to the wait queue,
      from the pickup queue it leaves the engine. */
  function Take(e: Engine, id: Id): Engine {
    var e1 := e.(held := e.held + {id}, picked := e.picked + multiset{id});
    if id in e.both then e1.(both := Without(e.both, id), wait := e.wait + [id])
    else e1.(pickup := Without(e.pickup, id))
  }

  /** The application gives `id` back.  With `id` no longer allocated the source would write to freed
      memory; such a step is not `Defined` below. */
  function Recycle(e: Engine, id: Id): Engine {
    if id !in e.mem then e.(held := e.held - {id})
    else
      var e1 := e.(mem := e.mem[id := e.mem[id].(pickupDone := true)], held := e.held - {id});
      if e.mem[id].fwdDone then Free(e1, id) else e1
  }

  // ---- the invariant, message by message ----

  /** In at most one queue, with the flags that queue implies. */
  predicate Placed(e: Engine, id: Id) {
    var w, b, p := multiset(e.wait)[id], multiset(e.both)[id], multiset(e.pickup)[id];
    && w + b + p <= 1
    && (id !in e.mem ==> w + b + p == 0)
    && (id in e.mem ==>
      var f := e.mem[id];
      && (b == 1 ==> id in e.received && f == Flags(BCAST, false, false) && id !in e.held)
      && (p == 1 ==> id in e.received && f == Flags(BCAST, false, true) && id !in e.held)
      && (w == 1 ==> !f.fwdDone && (f.pickupDone <==> id !in e.held))
      && (id in e.held ==>
        id in e.received && !f.pickupDone && b + p == 0 && (w == 1 <==> !f.fwdDone)))
  }

  /** Picked up at most once; freed at most once, and only when picked up and fully forwarded. */
  predicate Counted(e: Engine, id: Id) {
    && e.picked[id] <= 1 && e.freed[id] <= 1
    && (id in e.mem ==> id < e.next && e.freed[id] == 0)
    && (id in e.held ==> id in e.received)
    && (id >= e.next ==> e.picked[id] == 0 && e.freed[id] == 0 && id !in e.received)
    && (e.freed[id] == 1 ==> id in e.completed && (id in e.received ==> e.picked[id] == 1))
    && (id in e.mem && e.mem[id].fwdDone ==> id in e.completed)
    && (id in e.mem && id in e.received ==>
      && e.mem[id].sendType == BCAST
      && (e.picked[id] == 1 <==> e.mem[id].pickupDone || id in e.held))
  }

  /** A received message is never lost: it is queued, in the application's hands, or freed. */
  predicate Kept(e: Engine, id: Id) {
    id in e.received ==>
      && (id in e.mem <==> e.freed[id] == 0)
      && (id in e.mem ==>
        || id in e.held
        || multiset(e.wait)[id] + multiset(e.both)[id] + multiset(e.pickup)[id] == 1)
  }

  /** An own message waits for its sends, unless it is a decision, which is in no queue.  Once the
      sends have completed a broadcast is freed and a proposal is not. */
  predicate Mine(e: Engine, id: Id) {
    && (id >= e.next ==> id !in e.sent && id !in e.completed)
    && (id < e.next ==> (id in e.sent <==> id !in e.received))
    && (id in e.sent ==>
      && id !in e.held && e.picked[id] == 0
      && multiset(e.both)[id] + multiset(e.pickup)[id] == 0
      && (id in e.mem <==> e.freed[id] == 0)
      && (id in e.mem ==> e.mem[id] == Flags(e.sent[id], true, id in e.completed))
      && (if e.sent[id] == DECISION then multiset(e.wait)[id] == 0 && id !in e.completed
          else multiset(e.wait)[id] == if id in e.completed then 0 else 1)
      && (e.freed[id] == 1 <==> id in e.completed && e.sent[id] == BCAST))
  }

  predicate Sound(e: Engine, id: Id) {
    Placed(e, id) && Counted(e, id) && Kept(e, id) && Mine(e, id)
  }

  ghost predicate Inv(e: Engine) {
    forall id: Id :: Sound(e, id)
  }

  lemma StartInv()
    ensures Inv(START)
  {
  }

  lemma ReceiveKeeps(e: Engine, forwards: bool)
    requires Inv(e)
    ensures Inv(Receive(e, forwards))
  {
    forall id: Id
      ensures Sound(Receive(e, forwards), id)
    {
      assert Sound(e, id) && Sound(e, e.next);
    }
  }

  lemma InitiateKeeps(e: Engine, tag: Tag)
    requires Inv(e)
    ensures Inv(Initiate(e, tag))
  {
    forall id: Id
      ensures Sound(Initiate(e, tag), id)
    {
      assert Sound(e, id) && Sound(e, e.next);
    }
  }

  lemma TestBothKeeps(e: Engine, id: Id, done: bool)
    requires Inv(e) && id in e.both
    ensures id in e.mem && Inv(TestBoth(e, id, done))
  {
    assert Sound(e, id);
    WithoutOne(e.both, id);
    forall x: Id
      ensures Sound(TestBoth(e, id, done), x)
    {
      assert Sound(e, x);
    }
  }

  /** The outcome of a cleanup with `w` for the shortened queue. */
  function Cleaned(e: Engine, id: Id, w: seq<Id>): Engine
    requires id in e.mem
  {
    var e1 := Complete(e, id).(wait := w);
    if e.mem[id].sendType == BCAST then Free(e1, id) else e1
  }

  predicate Shorter(q: seq<Id>, w: seq<Id>, id: Id, x: Id) {
    multiset(w)[x] + (if x == id then 1 else 0) == multiset(q)[x]
  }

  lemma CleanedPlaced(e: Engine, id: Id, w: seq<Id>, x: Id)
    requires Sound(e, id) && Sound(e, x) && id in e.wait && id in e.mem
    requires Shorter(e.wait, w, id, x)
    ensures Placed(Cleaned(e, id, w), x)
  {
  }

  lemma CleanedCounted(e: Engine, id: Id, w: seq<Id>, x: Id)
    requires Sound(e, id) && Sound(e, x) && id in e.wait && id in e.mem
    ensures Counted(Cleaned(e, id, w), x)
  {
  }

  lemma CleanedKept(e: Engine, id: Id, w: seq<Id>, x: Id)
    requires Sound(e, id) && Sound(e, x) && id in e.wait && id in e.mem
    requires Shorter(e.wait, w, id, x)
    ensures Kept(Cleaned(e, id, w), x)
  {
  }

  lemma CleanedMine(e: Engine, id: Id, w: seq<Id>, x: Id)
    requires Sound(e, id) && Sound(e, x) && id in e.wait && id in e.mem
    requires Shorter(e.wait, w, id, x)
    ensures Mine(Cleaned(e, id, w), x)
  {
  }

  /** The engine keeps its books even if it frees what the application holds. */
  lemma TestWaitKeeps(e: Engine, id: Id, done: bool)
    requires Inv(e) && id in e.wait
    ensures id in e.mem && Inv(TestWait(e, id, done))
  {
    assert Sound(e, id);
    var w := Without(e.wait, id);
    WithoutOne(e.wait, id);
    if done {
      assert TestWait(e, id, true) == Cleaned(e, id, w);
      forall x: Id
        ensures Sound(Cleaned(e, id, w), x)
      {
        assert Sound(e, x);
        CleanedPlaced(e, id, w, x);
        CleanedCounted(e, id, w, x);
        CleanedKept(e, id, w, x);
        CleanedMine(e, id, w, x);
      }
    }
  }

  lemma TakeKeeps(e: Engine, id: Id)
    requires Inv(e) && (id in e.both || id in e.pickup)
    ensures Inv(Take(e, id)) && e.picked[id] == 0
  {
    assert Sound(e, id);
    WithoutOne(e.both, id);
    WithoutOne(e.pickup, id);
    forall x: Id
      ensures Sound(Take(e, id), x)
    {
      assert Sound(e, x);
    }
  }

  lemma RecycleKeeps(e: Engine, id: Id)
    requires Inv(e) && id in e.held && id in e.mem
    ensures Inv(Recycle(e, id))
  {
    assert Sound(e, id);
    forall x: Id
      ensures Sound(Recycle(e, id), x)
    {
      assert Sound(e, x);
    }
  }

  // ---- a whole progress call ----

  /** The wait-and-pickup queue `q` after its first `i` nodes were tested. */
  function AfterBoth(e: Engine, q: seq<Id>, done: set<Id>, i: nat): Engine
    requires i <= |q|
  {
    if i == 0 then e
    else TestBoth(AfterBoth(e, q, done, i - 1), q[i - 1], q[i - 1] in done)
  }

  /** The wait queue `q` after its first `i` nodes were tested. */
  function AfterWait(e: Engine, q: seq<Id>, done: set<Id>, i: nat): Engine
    requires i <= |q|
  {
    if i == 0 then e
    else TestWait(AfterWait(e, q, done, i - 1), q[i - 1], q[i - 1] in done)
  }

  /** Both queue scans of RLO_make_progress_gen. */
  function Progress(e: Engine, done: set<Id>, later: set<Id>): Engine {
    var e1 := AfterBoth(e, e.both, done, |e.both|);
    AfterWait(e1, e1.wait, later, |e1.wait|)
  }

  predicate AllIn(q: seq<Id>, from: nat, queue: seq<Id>) {
    forall j | from <= j < |q| :: q[j] in queue
  }

  predicate NoRepeat(q: seq<Id>) {
    forall i, j | 0 <= i < j < |q| :: q[i] != q[j]
  }

  lemma {:induction false} CountTwice(q: seq<Id>, i: nat, j: nat)
    requires i < j < |q| && q[i] == q[j]
    ensures multiset(q)[q[i]] >= 2
  {
    assert q == q[..j] + [q[j]] + q[j + 1..];
    assert q[i] in q[..j];
  }

  lemma OnceMeansNoRepeat(q: seq<Id>)
    requires forall x: Id :: multiset(q)[x] <= 1
    ensures NoRepeat(q)
  {
    forall i, j | 0 <= i < j < |q|
      ensures q[i] != q[j]
    {
      if q[i] == q[j] {
        CountTwice(q, i, j);
      }
    }
  }

  lemma QueuesDoNotRepeat(e: Engine)
    requires Inv(e)
    ensures NoRepeat(e.wait) && NoRepeat(e.both)
  {
    forall x: Id
      ensures multiset(e.wait)[x] <= 1 && multiset(e.both)[x] <= 1
    {
      assert Sound(e, x);
    }
    OnceMeansNoRepeat(e.wait);
    OnceMeansNoRepeat(e.both);
  }

  lemma WithoutOthers(q: seq<Id>, id: Id, x: Id)
    requires x in q && x != id
    ensures x in Without(q, id)
  {
    WithoutOne(q, id);
    assert x in multiset(q);
    assert x in multiset(Without(q, id));
  }

  /** Each node a scan reaches is still in the queue it scans. */
  lemma {:induction false} BothScanKeeps(e: Engine, q: seq<Id>, done: set<Id>, i: nat)
    requires Inv(e) && q == e.both && NoRepeat(q) && i <= |q|
    ensures var e1 := AfterBoth(e, q, done, i);
      Inv(e1) && AllIn(q, i, e1.both) && e1.held == e.held
  {
    if i > 0 {
      BothScanKeeps(e, q, done, i - 1);
      var e0 := AfterBoth(e, q, done, i - 1);
      var id := q[i - 1];
      TestBothKeeps(e0, id, id in done);
      forall j | i <= j < |q|
        ensures q[j] in AfterBoth(e, q, done, i).both
      {
        WithoutOthers(e0.both, id, q[j]);
      }
    }
  }

  lemma {:induction false} WaitScanKeeps(e: Engine, q: seq<Id>, done: set<Id>, i: nat)
    requires Inv(e) && q == e.wait && NoRepeat(q) && i <= |q|
    ensures var e1 := AfterWait(e, q, done, i);
      Inv(e1) && AllIn(q, i, e1.wait) && e1.held == e.held
  {
    if i > 0 {
      WaitScanKeeps(e, q, done, i - 1);
      var e0 := AfterWait(e, q, done, i - 1);
      var id := q[i - 1];
      TestWaitKeeps(e0, id, id in done);
      forall j | i <= j < |q|
        ensures q[j] in AfterWait(e, q, done, i).wait
      {
        WithoutOthers(e0.wait, id, q[j]);
      }
    }
  }

  lemma ProgressKeeps(e: Engine, done: set<Id>, later: set<Id>)
    requires Inv(e)
    ensures Inv(Progress(e, done, later)) && Progress(e, done, later).held == e.held
  {
    QueuesDoNotRepeat(e);
    BothScanKeeps(e, e.both, done, |e.both|);
    var e1 := AfterBoth(e, e.both, done, |e.both|);
    QueuesDoNotRepeat(e1);
    WaitScanKeeps(e1, e1.wait, later, |e1.wait|);
  }

  // ---- holding across progress ----

  /** What the application holds is allocated. */
  predicate Safe(e: Engine) {
    forall id | id in e.held :: id in e.mem
  }

  /** The forwards of everything the application holds have completed. */
  predicate HeldDone(e: Engine) {
    forall id | id in e.held :: id in e.mem && e.mem[id].fwdDone
  }

  lemma NotQueued(e: Engine, id: Id)
    requires Inv(e) && id in e.held && id in e.mem && e.mem[id].fwdDone
    ensures id !in e.wait && id !in e.both && id !in e.pickup
  {
    assert Sound(e, id);
  }

  /** A scan touches only what is in its queue. */
  lemma {:induction false} BothScanSpares(e: Engine, q: seq<Id>, done: set<Id>, i: nat, id: Id)
    requires i <= |q| && id !in q && id in e.mem
    ensures var e1 := AfterBoth(e, q, done, i); id in e1.mem && e1.mem[id] == e.mem[id]
  {
    if i > 0 {
      BothScanSpares(e, q, done, i - 1, id);
    }
  }

  lemma {:induction false} WaitScanSpares(e: Engine, q: seq<Id>, done: set<Id>, i: nat, id: Id)
    requires i <= |q| && id !in q && id in e.mem
    ensures id in AfterWait(e, q, done, i).mem
  {
    if i > 0 {
      WaitScanSpares(e, q, done, i - 1, id);
    }
  }

  /** Progress never frees a held message whose forwards are done. */
  lemma DoneIsSpared(e: Engine, done: set<Id>, later: set<Id>, id: Id)
    requires Inv(e) && id in e.held && id in e.mem && e.mem[id].fwdDone
    ensures id in Progress(e, done, later).mem
  {
    QueuesDoNotRepeat(e);
    NotQueued(e, id);
    BothScanKeeps(e, e.both, done, |e.both|);
    BothScanSpares(e, e.both, done, |e.both|, id);
    var e1 := AfterBoth(e, e.both, done, |e.both|);
    NotQueued(e1, id);
    WaitScanSpares(e1, e1.wait, later, |e1.wait|, id);
  }

  /** Nothing moves while no sends complete. */
  lemma {:induction false} IdleBothScan(e: Engine, i: nat)
    requires Inv(e) && i <= |e.both|
    ensures AfterBoth(e, e.both, {}, i) == e
  {
    if i > 0 {
      IdleBothScan(e, i - 1);
      assert Sound(e, e.both[i - 1]);
    }
  }

  /** Testing a message whose sends have completed frees it if it was a broadcast. */
  lemma TestFrees(e: Engine, id: Id)
    requires id in e.mem && e.mem[id].sendType == BCAST
    ensures id !in TestWait(e, id, true).mem
  {
  }

  /** A scan in which only the sends of `id` have completed frees it. */
  lemma {:induction false} WaitScanFrees(e: Engine, i: nat, id: Id)
    requires NoRepeat(e.wait) && i <= |e.wait|
    requires id in e.mem && e.mem[id].sendType == BCAST
    ensures var e1 := AfterWait(e, e.wait, {id}, i);
      if id in e.wait[..i] then id !in e1.mem else e1 == e
  {
    if i > 0 {
      WaitScanFrees(e, i - 1, id);
      FrontAndLast(e.wait, i);
      TestFrees(e, id);
    }
  }

  lemma FrontAndLast(q: seq<Id>, i: nat)
    requires 0 < i <= |q| && NoRepeat(q)
    ensures forall x :: x in q[..i] <==> x in q[..i - 1] || x == q[i - 1]
    ensures q[i - 1] !in q[..i - 1]
  {
    assert q[..i] == q[..i - 1] + [q[i - 1]];
  }

  lemma UndoneIsFreed(e: Engine, id: Id)
    requires Inv(e) && id in e.held && id in e.mem && !e.mem[id].fwdDone
    ensures id !in Progress(e, {}, {id}).mem
  {
    assert Sound(e, id);
    assert id in multiset(e.wait);
    QueuesDoNotRepeat(e);
    IdleBothScan(e, |e.both|);
    WaitScanFrees(e, |e.wait|, id);
    assert e.wait[..|e.wait|] == e.wait;
  }

  /** A held message survives every outcome of a progress call exactly if its forwards had completed
      before the call. */
  lemma SurvivesIffForwarded(e: Engine, id: Id)
    requires Inv(e) && id in e.held && id in e.mem
    ensures (forall done: set<Id>, later: set<Id> :: id in Progress(e, done, later).mem)
      <==> e.mem[id].fwdDone
  {
    if e.mem[id].fwdDone {
      forall done: set<Id>, later: set<Id>
        ensures id in Progress(e, done, later).mem
      {
        DoneIsSpared(e, done, later, id);
      }
    } else {
      UndoneIsFreed(e, id);
    }
  }

  // ---- all runs ----

  datatype Event =
    | Arrive(forwards: bool)
    | Send(tag: Tag)
    | MakeProgress(done: set<Id>, later: set<Id>)
    | PickUp
    | GiveBack(id: Id)

  /** The application gives back what it holds, and the memory is still there. */
  predicate Defined(e: Engine, ev: Event) {
    ev.GiveBack? ==> ev.id in e.held && ev.id in e.mem
  }

  /** What the application must observe: it gives back only what it holds, and lets the engine
      progress only while the forwards of everything it holds are done. */
  predicate Allowed(e: Engine, ev: Event) {
    match ev
    case Arrive(_) => true
    case Send(_) => true
    case MakeProgress(_, _) => HeldDone(e)
    case PickUp => true
    case GiveBack(id) => id in e.held
  }

  /** RLO_user_pickup_next finds the oldest message that still has forwards pending, else the
      oldest that has none. */
  function Step(e: Engine, ev: Event): Engine {
    match ev
    case Arrive(forwards) => Receive(e, forwards)
    case Send(tag) => Initiate(e, tag)
    case MakeProgress(done, later) => Progress(e, done, later)
    case PickUp => if e.both + e.pickup == [] then e else Take(e, (e.both + e.pickup)[0])
    case GiveBack(id) => Recycle(e, id)
  }

  lemma StepKeeps(e: Engine, ev: Event)
    requires Inv(e) && Defined(e, ev)
    ensures Inv(Step(e, ev))
  {
    match ev
    case Arrive(forwards) => ReceiveKeeps(e, forwards);
    case Send(tag) => InitiateKeeps(e, tag);
    case MakeProgress(done, later) => ProgressKeeps(e, done, later);
    case PickUp =>
      if e.both + e.pickup != [] {
        TakeKeeps(e, (e.both + e.pickup)[0]);
      }
    case GiveBack(id) => RecycleKeeps(e, id);
  }

  /** The discipline keeps the application's pointers good, and so its steps defined. */
  lemma StepStaysSafe(e: Engine, ev: Event)
    requires Inv(e) && Safe(e) && Allowed(e, ev)
    ensures Defined(e, ev) && Safe(Step(e, ev))
  {
    match ev
    case MakeProgress(done, later) =>
      ProgressKeeps(e, done, later);
      forall id | id in e.held
        ensures id in Progress(e, done, later).mem
      {
        DoneIsSpared(e, done, later, id);
      }
    case PickUp =>
      if e.both + e.pickup != [] {
        assert Sound(e, (e.both + e.pickup)[0]);
      }
    case _ =>
  }

  /** The discipline is exact: from a safe state, progress keeps the application's pointers good
      whatever completes if and only if the forwards of all it holds are done. */
  lemma ProgressIsSafeIff(e: Engine)
    requires Inv(e) && Safe(e)
    ensures (forall done: set<Id>, later: set<Id> :: Safe(Progress(e, done, later)))
      <==> Allowed(e, MakeProgress({}, {}))
  {
    if HeldDone(e) {
      forall done: set<Id>, later: set<Id>
        ensures Safe(Progress(e, done, later))
      {
        StepStaysSafe(e, MakeProgress(done, later));
      }
    } else {
      var id :| id in e.held && !e.mem[id].fwdDone;
      UndoneIsFreed(e, id);
      ProgressKeeps(e, {}, {id});
      assert !Safe(Progress(e, {}, {id}));
    }
  }

  function Run(es: seq<Event>): Engine {
    if es == [] then START else Step(Run(es[..|es| - 1]), es[|es| - 1])
  }

  /** No step of the run writes to freed memory. */
  predicate DefinedRun(es: seq<Event>) {
    es == [] ||
    (DefinedRun(es[..|es| - 1]) && Defined(Run(es[..|es| - 1]), es[|es| - 1]))
  }

  predicate Disciplined(es: seq<Event>) {
    es == [] ||
    (Disciplined(es[..|es| - 1]) && Allowed(Run(es[..|es| - 1]), es[|es| - 1]))
  }

  lemma {:induction false} RunInv(es: seq<Event>)
    requires DefinedRun(es)
    ensures Inv(Run(es))
  {
    if es == [] {
      StartInv();
    } else {
      RunInv(es[..|es| - 1]);
      StepKeeps(Run(es[..|es| - 1]), es[|es| - 1]);
    }
  }

  /** A disciplined application never makes the engine touch freed memory. */
  lemma {:induction false} DisciplineSuffices(es: seq<Event>)
    requires Disciplined(es)
    ensures DefinedRun(es) && Safe(Run(es))
  {
    if es != [] {
      var front := es[..|es| - 1];
      DisciplineSuffices(front);
      RunInv(front);
      StepStaysSafe(Run(front), es[|es| - 1]);
    }
  }

  /** In every run each received broadcast is in at most one queue, is picked up at most once, and is
      freed at most once, then only after its forwards completed and it was picked up. */
  lemma LifecycleHolds(es: seq<Event>, id: Id)
    requires DefinedRun(es)
    ensures var e := Run(es);
      && multiset(e.wait)[id] + multiset(e.both)[id] + multiset(e.pickup)[id] <= 1
      && e.picked[id] <= 1 && e.freed[id] <= 1
      && (id in e.received && e.freed[id] == 1 ==> id in e.completed && e.picked[id] == 1)
  {
    RunInv(es);
    assert Sound(Run(es), id);
  }

  /** No queue ever refers to freed memory, and no pointer of a disciplined application does; so
      what such an application still holds has not been freed. */
  lemma NothingDangles(es: seq<Event>, id: Id)
    requires Disciplined(es)
    requires var e := Run(es);
      id in e.wait || id in e.both || id in e.pickup || id in e.held
    ensures id in Run(es).mem && Run(es).freed[id] == 0
  {
    DisciplineSuffices(es);
    RunInv(es);
    assert Sound(Run(es), id);
  }

  /** When the queues are empty and nothing is held, every received broadcast has been picked up
      exactly once and freed exactly once. */
  lemma QuietMeansReclaimed(es: seq<Event>, id: Id)
    requires DefinedRun(es) && id in Run(es).received
    requires var e := Run(es); e.wait == [] && e.both == [] && e.pickup == [] && e.held == {}
    ensures Run(es).picked[id] == 1 && Run(es).freed[id] == 1
  {
    RunInv(es);
    assert Sound(Run(es), id);
  }

  /** In every run an own broadcast or proposal is in the wait queue exactly once until its sends
      complete, a decision never is.  A broadcast is freed exactly when its sends have completed, and
      once; an own proposal or decision never is.  None of them is ever handed to the application. */
  lemma OwnMessages(es: seq<Event>, id: Id)
    requires DefinedRun(es) && id in Run(es).sent
    ensures var e := Run(es);
      && multiset(e.wait)[id] == (if e.sent[id] == DECISION || id in e.completed then 0 else 1)
      && id !in e.both && id !in e.pickup && id !in e.held && e.picked[id] == 0
      && e.freed[id] == (if e.sent[id] == BCAST && id in e.completed then 1 else 0)
  {
    RunInv(es);
    assert Sound(Run(es), id);
  }

  /** When the wait queue is empty, the sends of every own message but decisions have completed, every
      own broadcast has been freed exactly once, and no own proposal has. */
  lemma OwnReclaimed(es: seq<Event>, id: Id)
    requires DefinedRun(es) && id in Run(es).sent && Run(es).wait == []
    ensures var e := Run(es);
      && (id in e.completed <==> e.sent[id] != DECISION)
      && e.freed[id] == if e.sent[id] == BCAST then 1 else 0
  {
    RunInv(es);
    assert Sound(Run(es), id);
  }

  // ---- the history is the run's ----

  /** The events that brought a message into being, in order. */
  function Births(es: seq<Event>): seq<Event> {
    if es == [] then []
    else
      var ev := es[|es| - 1];
      Births(es[..|es| - 1]) + if ev.Arrive? || ev.Send? then [ev] else []
  }

  /** Message `id` is the one the event `births[id]` brought. */
  ghost predicate Recorded(e: Engine, births: seq<Event>) {
    && e.next == |births|
    && (forall id: Id :: id in e.received <==> id < |births| && births[id].Arrive?)
    && (forall id: Id :: id in e.sent <==> id < |births| && births[id].Send?)
    && forall id | id in e.sent :: births[id] == Send(e.sent[id])
  }

  predicate SameBirths(e: Engine, f: Engine) {
    f.next == e.next && f.received == e.received && f.sent == e.sent
  }

  lemma {:induction false} BothScanBears(e: Engine, q: seq<Id>, done: set<Id>, i: nat)
    requires i <= |q|
    ensures SameBirths(e, AfterBoth(e, q, done, i))
  {
    if i > 0 {
      BothScanBears(e, q, done, i - 1);
    }
  }

  lemma {:induction false} WaitScanBears(e: Engine, q: seq<Id>, done: set<Id>, i: nat)
    requires i <= |q|
    ensures SameBirths(e, AfterWait(e, q, done, i))
  {
    if i > 0 {
      WaitScanBears(e, q, done, i - 1);
    }
  }

  lemma ScansBear(e: Engine, done: set<Id>, later: set<Id>)
    ensures SameBirths(e, Progress(e, done, later))
  {
    BothScanBears(e, e.both, done, |e.both|);
    var e1 := AfterBoth(e, e.both, done, |e.both|);
    WaitScanBears(e1, e1.wait, later, |e1.wait|);
  }

  lemma OneMoreBirth(e: Engine, births: seq<Event>, ev: Event)
    requires Recorded(e, births) && (ev.Arrive? || ev.Send?)
    ensures Recorded(Step(e, ev), births + [ev])
  {
  }

  /** Every message arrived or was sent by exactly one event of the run, under the tag of that event. */
  lemma {:induction false} HistoryIsRecorded(es: seq<Event>)
    ensures Recorded(Run(es), Births(es))
  {
    if es != [] {
      var front, ev := es[..|es| - 1], es[|es| - 1];
      HistoryIsRecorded(front);
      if ev.Arrive? || ev.Send? {
        OneMoreBirth(Run(front), Births(front), ev);
      } else {
        NoBirth(Run(front), ev);
      }
    }
  }

  lemma NoBirth(e: Engine, ev: Event)
    requires !ev.Arrive? && !ev.Send?
    ensures SameBirths(e, Step(e, ev))
  {
    if ev.MakeProgress? {
      ScansBear(e, ev.done, ev.later);
    }
  }

  // ---- the order of pickup ----

  predicate Ascending(q: seq<Id>) {
    forall i, j | 0 <= i < j < |q| :: q[i] < q[j]
  }

  lemma AscendingMore(q: seq<Id>, id: Id)
    requires Ascending(q) && forall x | x in q :: x < id
    ensures Ascending(q + [id])
  {
    forall i, j | 0 <= i < j < |q| + 1
      ensures (q + [id])[i] < (q + [id])[j]
    {
      assert q[i] in q;
    }
  }

  lemma {:induction false} WithoutAscending(q: seq<Id>, id: Id)
    requires Ascending(q)
    ensures Ascending(Without(q, id)) && forall x | x in Without(q, id) :: x in q
  {
    if q != [] {
      var front, last := q[..|q| - 1], q[|q| - 1];
      WithoutAscending(front, id);
      if last != id {
        assert forall x | x in front :: x < last;
        AscendingMore(Without(front, id), last);
      }
    }
  }

  lemma {:induction false} WithoutHead(q: seq<Id>)
    requires q != [] && NoRepeat(q)
    ensures Without(q, q[0]) == q[1..]
  {
    if |q| > 1 {
      var front := q[..|q| - 1];
      WithoutHead(front);
      assert q[1..] == front[1..] + [q[|q| - 1]];
    }
  }

  /** Messages with forwards pending stand in order of arrival, the others in the order in which they
      became ready, of which the first have been taken. */
  predicate Ordered(e: Engine) {
    && Ascending(e.both) && (forall id | id in e.both :: id < e.next)
    && |e.pickup| <= |e.ready| && e.pickup == e.ready[|e.ready| - |e.pickup|..]
  }

  lemma ReadyMore(ready: seq<Id>, pickup: seq<Id>, id: Id)
    requires |pickup| <= |ready| && pickup == ready[|ready| - |pickup|..]
    ensures pickup + [id] == (ready + [id])[|ready| - |pickup|..]
  {
  }

  lemma TestBothOrdered(e: Engine, id: Id, done: bool)
    requires Ordered(e)
    ensures Ordered(TestBoth(e, id, done))
  {
    WithoutAscending(e.both, id);
    ReadyMore(e.ready, e.pickup, id);
  }

  lemma {:induction false} BothScanOrdered(e: Engine, q: seq<Id>, done: set<Id>, i: nat)
    requires Ordered(e) && i <= |q|
    ensures Ordered(AfterBoth(e, q, done, i))
  {
    if i > 0 {
      BothScanOrdered(e, q, done, i - 1);
      TestBothOrdered(AfterBoth(e, q, done, i - 1), q[i - 1], q[i - 1] in done);
    }
  }

  lemma {:induction false} WaitScanOrdered(e: Engine, q: seq<Id>, done: set<Id>, i: nat)
    requires Ordered(e) && i <= |q|
    ensures Ordered(AfterWait(e, q, done, i))
  {
    if i > 0 {
      WaitScanOrdered(e, q, done, i - 1);
    }
  }

  lemma TakeOrdered(e: Engine)
    requires Inv(e) && Ordered(e) && e.both + e.pickup != []
    ensures Ordered(Take(e, (e.both + e.pickup)[0]))
  {
    if e.both == [] {
      PickupDoesNotRepeat(e);
      WithoutHead(e.pickup);
    } else {
      WithoutAscending(e.both, e.both[0]);
    }
  }

  lemma PickupDoesNotRepeat(e: Engine)
    requires Inv(e)
    ensures NoRepeat(e.pickup)
  {
    forall x: Id
      ensures multiset(e.pickup)[x] <= 1
    {
      assert Sound(e, x);
    }
    OnceMeansNoRepeat(e.pickup);
  }

  lemma StepOrdered(e: Engine, ev: Event)
    requires Inv(e) && Ordered(e)
    ensures Ordered(Step(e, ev))
  {
    match ev
    case Arrive(forwards) =>
      ReadyMore(e.ready, e.pickup, e.next);
      AscendingMore(e.both, e.next);
      assert Step(e, ev).both == if forwards then e.both + [e.next] else e.both;
    case Send(tag) =>
    case MakeProgress(done, later) =>
      BothScanOrdered(e, e.both, done, |e.both|);
      var e1 := AfterBoth(e, e.both, done, |e.both|);
      WaitScanOrdered(e1, e1.wait, later, |e1.wait|);
    case PickUp =>
      if e.both + e.pickup != [] {
        TakeOrdered(e);
      }
    case GiveBack(id) =>
  }

  /** First come, first served: in every run the messages that still wait for forwards are picked up in
      the order of their arrival, and the others in the order in which they became ready. */
  lemma {:induction false} PickupOrder(es: seq<Event>)
    requires DefinedRun(es)
    ensures Ordered(Run(es))
  {
    if es != [] {
      var front := es[..|es| - 1];
      PickupOrder(front);
      RunInv(front);
      StepOrdered(Run(front), es[|es| - 1]);
    }
  }

  lemma RunOneMore(es: seq<Event>, ev: Event)
    ensures Run(es + [ev]) == Step(Run(es), ev)
    ensures DefinedRun(es) && Defined(Run(es), ev) ==> DefinedRun(es + [ev])
  {
    assert (es + [ev])[..|es|] == es;
  }

  /** A message that is picked up at once, with its forwards still pending. */
  lemma TakenAtOnce(e: Engine)
    requires e.both == []
    ensures var e1 := Step(Receive(e, true), PickUp);
      e.next in e1.held && e.next in e1.mem && !e1.mem[e.next].fwdDone
  {
    assert Receive(e, true).both == [e.next];
  }

  /** The smallest case: a message picked up while its forwards are pending is freed under the
      application by the next progress call. */
  lemma ProgressWhileHoldingDangles()
    ensures var es := [] + [Arrive(true)] + [PickUp] + [MakeProgress({}, {0})];
      DefinedRun(es) && 0 in Run(es).held && 0 !in Run(es).mem
  {
    var one := [] + [Arrive(true)];
    var two := one + [PickUp];
    RunOneMore([], Arrive(true));
    RunOneMore(one, PickUp);
    RunOneMore(two, MakeProgress({}, {0}));
    TakenAtOnce(START);
    RunInv(two);
    UndoneIsFreed(Run(two), 0);
    ProgressKeeps(Run(two), {}, {0});
  }

  // ---- the engine ----

  /** The queues and flags of struct progress_engine.  The ghost fields record the history that
      `View` exposes. */
  class ProgressEngine {
    var wait: seq<Id>
    var both: seq<Id>
    var pickup: seq<Id>
    var mem: map<Id, Flags>
    var next: Id
    ghost var held: set<Id>
    ghost var received: set<Id>
    ghost var sent: map<Id, Tag>
    ghost var completed: set<Id>
    ghost var ready: seq<Id>
    ghost var picked: multiset<Id>
    ghost var freed: multiset<Id>

    ghost function View(): Engine
      reads this
    {
      Engine(wait, both, pickup, mem, held, next, received, sent, completed, ready, picked, freed)
    }

    ghost predicate Valid()
      reads this
    {
      Inv(View())
    }

    constructor ()
      ensures View() == START && Valid()
    {
      wait, both, pickup, mem, next, held := [], [], [], map[], 0, {};
      received, sent, completed, ready, picked, freed := {}, map[], {}, [], multiset{}, multiset{};
      new;
      StartInv();
    }

    /** _bc_forward on a received broadcast: `sends` counts the forwards it posted. */
    method ForwardBcast(sends: nat) returns (id: Id)
      requires Valid()
      modifies this
      ensures Valid() && id == old(next)
      ensures View() == Receive(old(View()), sends > 0)
    {
      ghost var e := View();
      ReceiveKeeps(e, sends > 0);
      id := next;
      mem, next, received := mem[id := Flags(BCAST, false, false)], next + 1, received + {id};
      if sends > 0 {
        both := both + [id];
        assert View() == Receive(e, true);
      } else {
        mem := mem[id := mem[id].(fwdDone := true)];
        completed := completed + {id};
        pickup, ready := pickup + [id], ready + [id];
        assert mem == e.mem[id := Flags(BCAST, false, true)];
        assert View() == Receive(e, false);
      }
    }

    /** The queueing part of RLO_bcast_gen. */
    method QueueOwnBcast(tag: Tag) returns (id: Id)
      requires Valid()
      modifies this
      ensures Valid() && id == old(next)
      ensures View() == Initiate(old(View()), tag)
    {
      InitiateKeeps(View(), tag);
      id := next;
      mem, next, sent := mem[id := Flags(tag, true, false)], next + 1, sent[id := tag];
      if tag != DECISION {
        wait := wait + [id];
      }
    }

    /** _wait_and_pickup_queue_process */
    method WaitAndPickupQueueProcess(id: Id, done: bool)
      requires Valid() && id in both
      modifies this
      ensures Valid() && View() == TestBoth(old(View()), id, done)
    {
      ghost var e := View();
      TestBothKeeps(e, id, done);
      if done {
        mem := mem[id := mem[id].(fwdDone := true)];
        completed := completed + {id};
        both := Without(both, id);
        if !mem[id].pickupDone {
          pickup, ready := pickup + [id], ready + [id];
        }
        assert View() == TestBoth(e, id, true);
      } else {
        if mem[id].pickupDone {
          both := Without(both, id);
          wait := wait + [id];
        }
        assert View() == TestBoth(e, id, false);
      }
    }

    /** _wait_only_queue_cleanup on one message. */
    method WaitOnlyTest(id: Id, done: bool)
      requires Valid() && id in wait
      modifies this
      ensures Valid() && View() == TestWait(old(View()), id, done)
    {
      TestWaitKeeps(View(), id, done);
      if done {
        mem := mem[id := mem[id].(fwdDone := true)];
        completed := completed + {id};
        wait := Without(wait, id);
        if mem[id].sendType == BCAST {
          mem := mem - {id};
          freed := freed + multiset{id};
        }
      }
    }

    /** The queue scans of RLO_make_progress_gen.  A scan visits the messages its queue held when it
        began: a message is only ever removed while the cursor stands on it. */
    method MakeProgressGen(done: set<Id>, later: set<Id>)
      requires Valid()
      modifies this
      ensures Valid() && held == old(held)
      ensures View() == Progress(old(View()), done, later)
    {
      ghost var e := View();
      QueuesDoNotRepeat(e);
      var q := both;
      for i := 0 to |q|
        invariant Valid() && View() == AfterBoth(e, q, done, i)
      {
        BothScanKeeps(e, q, done, i);
        WaitAndPickupQueueProcess(q[i], q[i] in done);
      }
      BothScanKeeps(e, q, done, |q|);
      WaitOnlyQueueCleanup(later);
    }

    /** _wait_only_queue_cleanup */
    method WaitOnlyQueueCleanup(done: set<Id>)
      requires Valid()
      modifies this
      ensures Valid() && held == old(held)
      ensures View() == AfterWait(old(View()), old(wait), done, |old(wait)|)
    {
      ghost var e := View();
      QueuesDoNotRepeat(e);
      var q := wait;
      for i := 0 to |q|
        invariant Valid() && View() == AfterWait(e, q, done, i)
      {
        WaitScanKeeps(e, q, done, i);
        WaitOnlyTest(q[i], q[i] in done);
      }
      WaitScanKeeps(e, q, done, |q|);
    }

    /** The scan for the first message of `q` that nobody has picked up. */
    method FirstUnread(q: seq<Id>) returns (found: bool, i: nat)
      requires forall j | 0 <= j < |q| :: q[j] in mem
      ensures found ==> i < |q| && !mem[q[i]].pickupDone
      ensures forall j | 0 <= j < (if found then i else |q|) :: mem[q[j]].pickupDone
    {
      i := 0;
      while i < |q|
        invariant i <= |q| && forall j | 0 <= j < i :: mem[q[j]].pickupDone
      {
        if !mem[q[i]].pickupDone {
          return true, i;
        }
        i := i + 1;
      }
      found := false;
    }

    lemma QueuedAreUnread(j: nat)
      requires Valid()
      ensures j < |both| ==> both[j] in mem && !mem[both[j]].pickupDone
      ensures j < |pickup| ==> pickup[j] in mem && !mem[pickup[j]].pickupDone
    {
      if j < |both| {
        assert Sound(View(), both[j]);
      }
      if j < |pickup| {
        assert Sound(View(), pickup[j]);
      }
    }

    /** Hands `id` to the application. */
    method Hand(id: Id)
      requires Valid() && (id in both || id in pickup)
      modifies this
      ensures Valid() && View() == Take(old(View()), id) && old(picked)[id] == 0
    {
      ghost var e := View();
      TakeKeeps(e, id);
      held, picked := held + {id}, picked + multiset{id};
      if id in both {
        both := Without(both, id);
        wait := wait + [id];
        assert View() == Take(e, id);
      } else {
        pickup := Without(pickup, id);
        assert View() == Take(e, id);
      }
    }

    /** RLO_user_pickup_next: the first unread message, those with forwards pending first. */
    method UserPickupNext() returns (found: bool, id: Id)
      requires Valid()
      modifies this
      ensures Valid() && View() == Step(old(View()), PickUp)
      ensures found <==> old(both) + old(pickup) != []
      ensures found ==> id == (old(both) + old(pickup))[0] && held == old(held) + {id}
      ensures found ==> old(picked)[id] == 0
    {
      forall j: nat
        ensures j < |both| ==> both[j] in mem && !mem[both[j]].pickupDone
        ensures j < |pickup| ==> pickup[j] in mem && !mem[pickup[j]].pickupDone
      {
        QueuedAreUnread(j);
      }
      var i;
      found, i := FirstUnread(both);
      if found {
        id := both[i];
        Hand(id);
        return;
      }
      found, i := FirstUnread(pickup);
      if found {
        id := pickup[i];
        Hand(id);
        return;
      }
      id := 0;
    }

    /** RLO_user_msg_recycle of what was picked up. */
    method UserMsgRecycle(id: Id) returns (ret: int)
      requires Valid() && id in held && id in mem
      modifies this
      ensures Valid() && View() == Recycle(old(View()), id) && held == old(held) - {id}
      ensures ret == 1 <==> freed[id] == old(freed)[id] + 1
    {
      RecycleKeeps(View(), id);
      mem := mem[id := mem[id].(pickupDone := true)];
      held := held - {id};
      if mem[id].fwdDone {
        mem := mem - {id};
        freed := freed + multiset{id};
        return 1;
      }
      ret := 0;
    }
  }
}
