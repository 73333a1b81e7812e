/** All starters at once.  Every rank runs the handlers on its one pending queue, and the frames of
    all proposals share the channels.  Seen through one starter's proposal id, every such run is a
    run of the protocol, so what is proved of one starter holds of each. */
module Joint {
  import opened Common
  import opened SkipRing
  import opened Handlers
  import N = VotingNet
  import I = VotingInv
  import S = VotingSteps
  import V = Voting

  /** A frame with the origin word that travels before it. */
  datatype Packet = Packet(origin: nat, frame: Frame)

  /** A channel that does not overtake: all ever sent, and how much of it has been taken. */
  datatype Pipe = Pipe(sent: seq<Packet>, taken: nat) {
    predicate Waiting() {
      taken < |sent|
    }

    function Head(): Packet
      requires Waiting()
    {
      sent[taken]
    }
  }

  type Pipes = map<(nat, nat), Pipe>

  datatype System = System(locals: seq<Local>, pipes: Pipes)

  datatype Action =
    | Submit(rank: nat)
    | Recv(src: nat, dst: nat, judgement: bool)

  /** Each rank submits under an id of its own. */
  predicate GoodIds(n: nat, pids: seq<int>) {
    && n >= 2 && |pids| == n
    && (forall r | 0 <= r < n :: pids[r] >= 0)
    && forall a, b | 0 <= a < b < n :: pids[a] != pids[b]
  }

  const IDLE := Local(Own(-1, 0, 0, true, false), [], [], [])

  function Init(n: nat): System {
    System(Repeat(IDLE, n),
           map a: nat, b: nat | 0 <= a < n && 0 <= b < n :: (a, b) := Pipe([], 0))
  }

  function SendOne(c: Pipes, r: nat, to: nat, p: Packet): Pipes {
    map e | e in c :: if e == (r, to) then Pipe(c[e].sent + [p], c[e].taken) else c[e]
  }

  /** The pipes after rank `r` has posted these sends. */
  function Post(c: Pipes, r: nat, sends: seq<Sent>, origin: nat): Pipes {
    if sends == [] then c
    else
      var last := sends[|sends| - 1];
      SendOne(Post(c, r, sends[..|sends| - 1], origin), r, last.dst, Packet(origin, last.frame))
  }

  function TakeOne(c: Pipes, src: nat, dst: nat): Pipes
    requires (src, dst) in c
  {
    c[(src, dst) := c[(src, dst)].(taken := c[(src, dst)].taken + 1)]
  }

  predicate Sized(n: nat, x: System) {
    |x.locals| == n && forall a: nat, b: nat | a < n && b < n :: (a, b) in x.pipes
  }

  /** A rank submits again only when its previous proposal has been decided. */
  predicate Enabled(n: nat, x: System, a: Action) {
    Sized(n, x) &&
    match a
    case Submit(r) => r < n && (x.locals[r].own.pid == -1 || x.locals[r].own.decided)
    case Recv(src, dst, _) => src < n && dst < n && x.pipes[(src, dst)].Waiting()
  }

  /** What the receiving rank's handler does; its sends are what it leaves in an empty outbox. */
  function Handled(n: nat, dst: nat, l: Local, src: nat, p: Packet, judgement: bool): Local
    requires n >= 2
  {
    var l0 := l.(outbox := []);
    match p.frame.tag
    case PROPOSAL => AfterProposal(n, dst, l0, p.origin, src, p.frame.pid, if judgement then 1 else 0)
    case VOTE => AfterVote(n, dst, l0, p.frame.pid, p.frame.vote, judgement)
    case DECISION => AfterDecision(n, dst, l0, p.origin, src, p.frame.pid, p.frame.vote)
  }

  /** A forwarded message keeps its origin; a decision is its sender's own. */
  function OriginOf(dst: nat, p: Packet): nat {
    if p.frame.tag == VOTE then dst else p.origin
  }

  function Apply(n: nat, pids: seq<int>, x: System, a: Action): System
    requires GoodIds(n, pids) && Enabled(n, x, a)
  {
    match a
    case Submit(r) =>
      var l := AfterSubmit(n, r, x.locals[r].(outbox := []), pids[r], false);
      System(x.locals[r := l], Post(x.pipes, r, l.outbox, r))
    case Recv(src, dst, judgement) =>
      var p := x.pipes[(src, dst)].Head();
      var l := Handled(n, dst, x.locals[dst], src, p, judgement);
      System(x.locals[dst := l], Post(TakeOne(x.pipes, src, dst), dst, l.outbox, OriginOf(dst, p)))
  }

  function Run(n: nat, pids: seq<int>, acts: seq<Action>): Option<System>
    requires GoodIds(n, pids)
  {
    if acts == [] then Some(Init(n))
    else
      match Run(n, pids, acts[..|acts| - 1])
      case None => None
      case Some(x) =>
        var a := acts[|acts| - 1];
        if Enabled(n, x, a) then Some(Apply(n, pids, x, a)) else None
  }

  // ---- one starter's view ----

  /** The frames of one id, in order. */
  function Frames(ps: seq<Packet>, pid: int): seq<Frame> {
    if ps == [] then []
    else
      Frames(ps[..|ps| - 1], pid)
        + if ps[|ps| - 1].frame.pid == pid then [ps[|ps| - 1].frame] else []
  }

  lemma FramesMore(ps: seq<Packet>, p: Packet, pid: int)
    ensures Frames(ps + [p], pid) == Frames(ps, pid) + if p.frame.pid == pid then [p.frame] else []
  {
    assert (ps + [p])[..|ps|] == ps;
  }

  /** A message of the protocol is a frame with its round added. */
  predicate IsFrame(f: Frame, m: N.Msg) {
    m == ToMsg(f, m.round)
  }

  predicate AreFrames(fs: seq<Frame>, ms: seq<N.Msg>) {
    |fs| == |ms| && forall i | 0 <= i < |fs| :: IsFrame(fs[i], ms[i])
  }

  /** A pipe, seen through one id, is a channel of the protocol. */
  predicate PipeMirrors(p: Pipe, c: N.Channel, pid: int) {
    && p.taken <= |p.sent|
    && AreFrames(Frames(p.sent, pid), c.sent)
    && c.taken == |Frames(p.sent[..p.taken], pid)|
  }

  predicate AllMirror(n: nat, pipes: Pipes, chan: N.Channels, pid: int) {
    forall a: nat, b: nat | a < n && b < n ::
      (a, b) in pipes && (a, b) in chan && PipeMirrors(pipes[(a, b)], chan[(a, b)], pid)
  }

  lemma {:induction false} FramesGrow(ps: seq<Packet>, i: nat, pid: int)
    requires i <= |ps|
    ensures Frames(ps[..i], pid) <= Frames(ps, pid)
    ensures i < |ps| && ps[i].frame.pid == pid ==>
      |Frames(ps[..i], pid)| < |Frames(ps, pid)| && Frames(ps, pid)[|Frames(ps[..i], pid)|] == ps[i].frame
    decreases |ps| - i
  {
    if i == |ps| {
      assert ps[..i] == ps;
    } else {
      assert ps[..i + 1] == ps[..i] + [ps[i]];
      FramesMore(ps[..i], ps[i], pid);
      FramesGrow(ps, i + 1, pid);
    }
  }

  lemma SendMirrors(p: Pipe, c: N.Channel, pk: Packet, k: nat)
    requires PipeMirrors(p, c, pk.frame.pid)
    ensures PipeMirrors(Pipe(p.sent + [pk], p.taken), N.Channel(c.sent + [ToMsg(pk.frame, k)], c.taken), pk.frame.pid)
  {
    FramesMore(p.sent, pk, pk.frame.pid);
    assert (p.sent + [pk])[..p.taken] == p.sent[..p.taken];
  }

  lemma SendElsewhere(p: Pipe, c: N.Channel, pk: Packet, pid: int)
    requires PipeMirrors(p, c, pid) && pk.frame.pid != pid
    ensures PipeMirrors(Pipe(p.sent + [pk], p.taken), c, pid)
  {
    FramesMore(p.sent, pk, pid);
    assert (p.sent + [pk])[..p.taken] == p.sent[..p.taken];
  }

  predicate AllOf(sends: seq<Sent>, pid: int) {
    forall i | 0 <= i < |sends| :: sends[i].frame.pid == pid
  }

  /** Posting one's frames is sending the messages. */
  lemma {:induction false} PostMirrors(
      n: nat, pipes: Pipes, chan: N.Channels, r: nat, sends: seq<Sent>, origin: nat, k: nat, pid: int)
    requires AllMirror(n, pipes, chan, pid) && AllOf(sends, pid)
    ensures AllMirror(n, Post(pipes, r, sends, origin), Carry(chan, r, sends, k), pid)
  {
    if sends != [] {
      var front, x := sends[..|sends| - 1], sends[|sends| - 1];
      PostMirrors(n, pipes, chan, r, front, origin, k, pid);
      var p0, c0 := Post(pipes, r, front, origin), Carry(chan, r, front, k);
      SendOneMirrors(n, p0, c0, r, x.dst, Packet(origin, x.frame), k);
    }
  }

  lemma SendOneMirrors(n: nat, pipes: Pipes, chan: N.Channels, r: nat, to: nat, pk: Packet, k: nat)
    requires AllMirror(n, pipes, chan, pk.frame.pid)
    ensures AllMirror(n, SendOne(pipes, r, to, pk), N.SendAll(chan, r, {to}, ToMsg(pk.frame, k)), pk.frame.pid)
  {
    forall a: nat, b: nat | a < n && b < n
      ensures (a, b) in SendOne(pipes, r, to, pk) && (a, b) in N.SendAll(chan, r, {to}, ToMsg(pk.frame, k))
      ensures PipeMirrors(SendOne(pipes, r, to, pk)[(a, b)],
                          N.SendAll(chan, r, {to}, ToMsg(pk.frame, k))[(a, b)], pk.frame.pid)
    {
      SendMirrors(pipes[(a, b)], chan[(a, b)], pk, k);
    }
  }

  /** Frames of other ids go unnoticed. */
  lemma {:induction false} PostElsewhere(
      n: nat, pipes: Pipes, chan: N.Channels, r: nat, sends: seq<Sent>, origin: nat, other: int, pid: int)
    requires AllMirror(n, pipes, chan, pid) && AllOf(sends, other) && other != pid
    ensures AllMirror(n, Post(pipes, r, sends, origin), chan, pid)
  {
    if sends != [] {
      var front, x := sends[..|sends| - 1], sends[|sends| - 1];
      PostElsewhere(n, pipes, chan, r, front, origin, other, pid);
      var p0 := Post(pipes, r, front, origin);
      forall a: nat, b: nat | a < n && b < n
        ensures (a, b) in SendOne(p0, r, x.dst, Packet(origin, x.frame))
        ensures PipeMirrors(SendOne(p0, r, x.dst, Packet(origin, x.frame))[(a, b)], chan[(a, b)], pid)
      {
        SendElsewhere(p0[(a, b)], chan[(a, b)], Packet(origin, x.frame), pid);
      }
    }
  }

  /** The head of a pipe, if it has the id, is the head of the channel. */
  lemma TakeMirrors(p: Pipe, c: N.Channel, pid: int)
    requires PipeMirrors(p, c, pid) && p.Waiting()
    ensures var p1 := p.(taken := p.taken + 1);
      if p.Head().frame.pid == pid then
        && c.Waiting() && IsFrame(p.Head().frame, c.Head())
        && PipeMirrors(p1, c.(taken := c.taken + 1), pid)
      else PipeMirrors(p1, c, pid)
  {
    FramesGrow(p.sent, p.taken, pid);
    assert p.sent[..p.taken + 1] == p.sent[..p.taken] + [p.sent[p.taken]];
    FramesMore(p.sent[..p.taken], p.sent[p.taken], pid);
  }

  // ---- the simulation relation ----

  /** What holds of the shared parts: who owns which id, and what the origin words say. */
  ghost predicate Tidy(n: nat, pids: seq<int>, x: System)
    requires GoodIds(n, pids)
  {
    && Sized(n, x)
    && (forall r: nat | r < n :: x.locals[r].own.pid == -1 || x.locals[r].own.pid == pids[r])
    && forall a: nat, b: nat | a < n && b < n :: Labelled(n, pids, x.pipes[(a, b)].sent)
  }

  predicate LabelledAs(n: nat, pids: seq<int>, p: Packet)
    requires GoodIds(n, pids)
  {
    Owned(n, pids, p.frame.pid) && (p.frame.tag != VOTE ==> p.origin < n && p.frame.pid == pids[p.origin])
  }

  /** The id is some starter's. */
  predicate Owned(n: nat, pids: seq<int>, pid: int)
    requires GoodIds(n, pids)
  {
    exists o: nat | o < n :: pids[o] == pid
  }

  predicate Labelled(n: nat, pids: seq<int>, ps: seq<Packet>)
    requires GoodIds(n, pids)
  {
    forall i | 0 <= i < |ps| :: LabelledAs(n, pids, ps[i])
  }

  /** Starter `o`'s part of the system is the state `s` of the protocol. */
  ghost predicate View(n: nat, pids: seq<int>, x: System, o: nat, s: N.State)
    requires GoodIds(n, pids) && o < n
  {
    && Sized(n, x) && N.Sized(V.SkipRingNet(n, o), s)
    && PendingMirrors(x.locals, s.pending, pids[o])
    && OwnView(x.locals[o].own, pids[o], s)
    && AllMirror(n, x.pipes, s.chan, pids[o])
  }

  /** The starter's shares of all pending queues. */
  ghost predicate PendingMirrors(locals: seq<Local>, pending: seq<seq<N.Entry>>, pid: int) {
    && |locals| == |pending|
    && forall r | 0 <= r < |locals| :: Mirrors(ForPid(locals[r].pending, pid), pending[r])
  }

  /** Before its first round a starter has no proposal of its own. */
  predicate OwnView(own: Own, pid: int, s: N.State) {
    if s.round == 0 then own.pid == -1 else own.pid == pid && OwnMirrors(own, s.own)
  }

  lemma OneQueueChanges(
      locals: seq<Local>, pending: seq<seq<N.Entry>>, pid: int, d: nat, l: Local, pending1: seq<seq<N.Entry>>)
    requires PendingMirrors(locals, pending, pid) && d < |locals| && |pending1| == |pending|
    requires forall r | 0 <= r < |locals| && r != d :: pending1[r] == pending[r]
    requires Mirrors(ForPid(l.pending, pid), pending1[d])
    ensures PendingMirrors(locals[d := l], pending1, pid)
  {
  }

  /** What the action is to starter `o`. */
  function Seen(n: nat, pids: seq<int>, x: System, a: Action, o: nat): seq<N.Action>
    requires GoodIds(n, pids) && Enabled(n, x, a) && o < n
  {
    match a
    case Submit(r) => if r == o then [N.Submit] else []
    case Recv(src, dst, judgement) =>
      if x.pipes[(src, dst)].Head().frame.pid == pids[o] then [N.Recv(src, dst, judgement)] else []
  }

  /** The run as starter `o` sees it. */
  function Projection(n: nat, pids: seq<int>, acts: seq<Action>, o: nat): seq<N.Action>
    requires GoodIds(n, pids) && Run(n, pids, acts).Some? && o < n
  {
    if acts == [] then []
    else
      var front := acts[..|acts| - 1];
      Projection(n, pids, front, o)
        + Seen(n, pids, Run(n, pids, front).value, acts[|acts| - 1], o)
  }

  // ---- the handlers send only under the id they handle ----

  lemma HandledSends(n: nat, dst: nat, l: Local, src: nat, p: Packet, judgement: bool)
    requires n >= 2
    ensures AllOf(Handled(n, dst, l, src, p, judgement).outbox, p.frame.pid)
  {
  }

  lemma HandledOthers(n: nat, dst: nat, l: Local, src: nat, p: Packet, judgement: bool, other: int)
    requires n >= 2 && other != p.frame.pid
    ensures ForPid(Handled(n, dst, l, src, p, judgement).pending, other) == ForPid(l.pending, other)
  {
    var l0 := l.(outbox := []);
    match p.frame.tag
    case PROPOSAL =>
      ProposalsDisturbNobody(n, dst, l0, p.origin, src, p.frame.pid, if judgement then 1 else 0, other);
    case VOTE => VotesDisturbNobody(n, dst, l0, p.frame.pid, p.frame.vote, judgement, other);
    case DECISION => DecisionsDisturbNobody(n, dst, l0, p.origin, src, p.frame.pid, p.frame.vote, other);
  }

  lemma HandledOwn(n: nat, dst: nat, l: Local, src: nat, p: Packet, judgement: bool)
    requires n >= 2 && l.own.pid != p.frame.pid
    ensures Handled(n, dst, l, src, p, judgement).own == l.own
  {
  }

  lemma HandledOwnId(n: nat, dst: nat, l: Local, src: nat, p: Packet, judgement: bool)
    requires n >= 2
    ensures Handled(n, dst, l, src, p, judgement).own.pid == l.own.pid
  {
  }

  // ---- tidiness ----

  lemma {:induction false} PostLabels(
      n: nat, pids: seq<int>, c: Pipes, r: nat, sends: seq<Sent>, origin: nat)
    requires GoodIds(n, pids)
    requires forall a: nat, b: nat | a < n && b < n :: (a, b) in c && Labelled(n, pids, c[(a, b)].sent)
    requires forall i | 0 <= i < |sends| :: LabelledAs(n, pids, Packet(origin, sends[i].frame))
    ensures forall a: nat, b: nat | a < n && b < n ::
      (a, b) in Post(c, r, sends, origin) && Labelled(n, pids, Post(c, r, sends, origin)[(a, b)].sent)
  {
    if sends != [] {
      var front, x := sends[..|sends| - 1], sends[|sends| - 1];
      PostLabels(n, pids, c, r, front, origin);
      assert LabelledAs(n, pids, Packet(origin, x.frame));
    }
  }

  /** A handler labels what it sends as it should. */
  lemma HandledLabels(
      n: nat, pids: seq<int>, dst: nat, l: Local, src: nat, p: Packet, judgement: bool, i: nat)
    requires GoodIds(n, pids) && dst < n && LabelledAs(n, pids, p)
    requires l.own.pid == -1 || l.own.pid == pids[dst]
    requires i < |Handled(n, dst, l, src, p, judgement).outbox|
    ensures LabelledAs(n, pids, Packet(OriginOf(dst, p), Handled(n, dst, l, src, p, judgement).outbox[i].frame))
  {
    HandledSends(n, dst, l, src, p, judgement);
    assert p.frame.tag == VOTE && p.frame.pid != l.own.pid ==>
      Handled(n, dst, l, src, p, judgement).outbox[i].frame.tag == VOTE;
  }

  lemma RecvTidy(n: nat, pids: seq<int>, x: System, src: nat, dst: nat, judgement: bool)
    requires GoodIds(n, pids) && Tidy(n, pids, x) && Enabled(n, x, Recv(src, dst, judgement))
    ensures Tidy(n, pids, Apply(n, pids, x, Recv(src, dst, judgement)))
  {
    var p := x.pipes[(src, dst)].Head();
    assert Labelled(n, pids, x.pipes[(src, dst)].sent) && LabelledAs(n, pids, p);
    var l := Handled(n, dst, x.locals[dst], src, p, judgement);
    HandledOwnId(n, dst, x.locals[dst], src, p, judgement);
    forall i: nat | i < |l.outbox|
      ensures LabelledAs(n, pids, Packet(OriginOf(dst, p), l.outbox[i].frame))
    {
      HandledLabels(n, pids, dst, x.locals[dst], src, p, judgement, i);
    }
    PostLabels(n, pids, TakeOne(x.pipes, src, dst), dst, l.outbox, OriginOf(dst, p));
    StaysTidy(n, pids, x, dst, l, Post(TakeOne(x.pipes, src, dst), dst, l.outbox, OriginOf(dst, p)));
  }

  lemma SubmitSends(n: nat, r: nat, l: Local, pid: int, i: nat)
    requires n >= 2 && l.outbox == [] && i < |AfterSubmit(n, r, l, pid, false).outbox|
    ensures AfterSubmit(n, r, l, pid, false).outbox[i].frame == Frame(PROPOSAL, pid, true)
  {
  }

  lemma SubmitLabels(n: nat, pids: seq<int>, r: nat, l: Local)
    requires GoodIds(n, pids) && r < n && l.outbox == []
    ensures var sends := AfterSubmit(n, r, l, pids[r], false).outbox;
      forall i | 0 <= i < |sends| :: LabelledAs(n, pids, Packet(r, sends[i].frame))
  {
    var sends := AfterSubmit(n, r, l, pids[r], false).outbox;
    forall i | 0 <= i < |sends| ensures LabelledAs(n, pids, Packet(r, sends[i].frame)) {
      SubmitSends(n, r, l, pids[r], i);
    }
  }

  /** One rank's state and the pipes change, and both stay in order. */
  lemma StaysTidy(n: nat, pids: seq<int>, x: System, d: nat, l: Local, pipes: Pipes)
    requires GoodIds(n, pids) && Tidy(n, pids, x) && d < n
    requires l.own.pid == -1 || l.own.pid == pids[d]
    requires forall a: nat, b: nat | a < n && b < n :: (a, b) in pipes && Labelled(n, pids, pipes[(a, b)].sent)
    ensures Tidy(n, pids, System(x.locals[d := l], pipes))
  {
  }

  lemma SubmitTidy(n: nat, pids: seq<int>, x: System, r: nat)
    requires GoodIds(n, pids) && Tidy(n, pids, x) && Enabled(n, x, Submit(r))
    ensures Tidy(n, pids, Apply(n, pids, x, Submit(r)))
  {
    var l0 := x.locals[r].(outbox := []);
    var l := AfterSubmit(n, r, l0, pids[r], false);
    SubmitLabels(n, pids, r, l0);
    PostLabels(n, pids, x.pipes, r, l.outbox, r);
    assert l.own.pid == pids[r];
    StaysTidy(n, pids, x, r, l, Post(x.pipes, r, l.outbox, r));
  }

  // ---- one action, seen by one starter ----

  lemma NothingBefore(sends: seq<Sent>)
    ensures [] + sends == sends
  {
  }

  lemma SubmitReassembled(n: nat, pids: seq<int>, x: System, o: nat, s: N.State, s1: N.State, l: Local)
    requires GoodIds(n, pids) && o < n && View(n, pids, x, o, s)
    requires N.Sized(V.SkipRingNet(n, o), s1) && s1.round > 0 && s1.pending == s.pending
    requires l.own.pid == pids[o] && OwnMirrors(l.own, s1.own) && l.pending == x.locals[o].pending
    requires s1.chan == Carry(s.chan, o, l.outbox, s1.round) && AllOf(l.outbox, pids[o])
    ensures View(n, pids, System(x.locals[o := l], Post(x.pipes, o, l.outbox, o)), o, s1)
  {
    PostMirrors(n, x.pipes, s.chan, o, l.outbox, o, s1.round, pids[o]);
    OneQueueChanges(x.locals, s.pending, pids[o], o, l, s1.pending);
  }

  lemma SubmitCarries(n: nat, o: nat, s: N.State, l: Local, pid: int)
    requires n >= 2 && o < n && N.Sized(V.SkipRingNet(n, o), s) && l.outbox == []
    ensures var l1, s1 := AfterSubmit(n, o, l, pid, false), N.OnSubmit(V.SkipRingNet(n, o), s);
      && l1.own.pid == pid && OwnMirrors(l1.own, s1.own) && l1.pending == l.pending
      && s1.chan == Carry(s.chan, o, l1.outbox, s1.round)
  {
    var sends := SubmitRefines(n, o, s, l, pid);
    NothingBefore(sends);
  }

  lemma SubmitIsOwn(n: nat, o: nat, l: Local, pid: int)
    requires n >= 2 && l.outbox == []
    ensures AllOf(AfterSubmit(n, o, l, pid, false).outbox, pid)
  {
  }

  lemma SubmitFrame(net: N.Net, s: N.State)
    requires N.Sized(net, s)
    ensures var s1 := N.OnSubmit(net, s);
      N.Sized(net, s1) && s1.round == s.round + 1 && s1.pending == s.pending
  {
  }

  lemma OwnSubmit(n: nat, pids: seq<int>, x: System, o: nat, s: N.State)
    requires GoodIds(n, pids) && o < n && View(n, pids, x, o, s) && Enabled(n, x, Submit(o))
    requires s.round == 0 ==> s.own.decided
    ensures N.Enabled(V.SkipRingNet(n, o), s, N.Submit)
    ensures View(n, pids, Apply(n, pids, x, Submit(o)), o, N.OnSubmit(V.SkipRingNet(n, o), s))
  {
    var l0 := x.locals[o].(outbox := []);
    SubmitCarries(n, o, s, l0, pids[o]);
    SubmitIsOwn(n, o, l0, pids[o]);
    SubmitFrame(V.SkipRingNet(n, o), s);
    SubmitReassembled(n, pids, x, o, s, N.OnSubmit(V.SkipRingNet(n, o), s),
                      AfterSubmit(n, o, l0, pids[o], false));
  }

  lemma OtherSubmit(n: nat, pids: seq<int>, x: System, r: nat, o: nat, s: N.State)
    requires GoodIds(n, pids) && o < n && r != o && View(n, pids, x, o, s) && Enabled(n, x, Submit(r))
    ensures View(n, pids, Apply(n, pids, x, Submit(r)), o, s)
  {
    var l := AfterSubmit(n, r, x.locals[r].(outbox := []), pids[r], false);
    PostElsewhere(n, x.pipes, s.chan, r, l.outbox, r, pids[r], pids[o]);
  }

  lemma TakeAll(n: nat, x: System, src: nat, dst: nat, chan: N.Channels, pid: int)
    requires Sized(n, x) && src < n && dst < n && x.pipes[(src, dst)].Waiting()
    requires AllMirror(n, x.pipes, chan, pid)
    ensures var c := chan[(src, dst)];
      if x.pipes[(src, dst)].Head().frame.pid == pid then
        && c.Waiting() && IsFrame(x.pipes[(src, dst)].Head().frame, c.Head())
        && AllMirror(n, TakeOne(x.pipes, src, dst), chan[(src, dst) := c.(taken := c.taken + 1)], pid)
      else AllMirror(n, TakeOne(x.pipes, src, dst), chan, pid)
  {
    TakeMirrors(x.pipes[(src, dst)], chan[(src, dst)], pid);
  }

  /** Frames of other ids leave the starter's part alone. */
  lemma OtherRecv(n: nat, pids: seq<int>, x: System, src: nat, dst: nat, judgement: bool, o: nat, s: N.State)
    requires GoodIds(n, pids) && o < n && View(n, pids, x, o, s) && Tidy(n, pids, x)
    requires Enabled(n, x, Recv(src, dst, judgement))
    requires x.pipes[(src, dst)].Head().frame.pid != pids[o]
    ensures View(n, pids, Apply(n, pids, x, Recv(src, dst, judgement)), o, s)
  {
    var p := x.pipes[(src, dst)].Head();
    var l := Handled(n, dst, x.locals[dst], src, p, judgement);
    assert Labelled(n, pids, x.pipes[(src, dst)].sent) && LabelledAs(n, pids, p);
    TakeAll(n, x, src, dst, s.chan, pids[o]);
    HandledSends(n, dst, x.locals[dst], src, p, judgement);
    HandledOthers(n, dst, x.locals[dst], src, p, judgement, pids[o]);
    PostElsewhere(n, TakeOne(x.pipes, src, dst), s.chan, dst, l.outbox, OriginOf(dst, p), p.frame.pid, pids[o]);
    if dst == o {
      HandledOwn(n, dst, x.locals[dst], src, p, judgement);
    }
  }

  /** The conclusions a handler's refinement lemma gives, put into the view. */
  lemma Reassembled(n: nat, pids: seq<int>, x: System, src: nat, dst: nat, judgement: bool, o: nat,
                    t: N.State, s1: N.State, k: nat)
    requires GoodIds(n, pids) && o < n && Enabled(n, x, Recv(src, dst, judgement)) && N.Sized(V.SkipRingNet(n, o), s1)
    requires PendingMirrors(x.locals, t.pending, pids[o]) && |s1.pending| == |t.pending|
    requires forall r | 0 <= r < n && r != dst :: s1.pending[r] == t.pending[r]
    requires x.pipes[(src, dst)].Head().frame.pid == pids[o]
    requires AllMirror(n, TakeOne(x.pipes, src, dst), t.chan, pids[o])
    requires var l := Handled(n, dst, x.locals[dst], src, x.pipes[(src, dst)].Head(), judgement);
      && Mirrors(ForPid(l.pending, pids[o]), s1.pending[dst])
      && s1.chan == Carry(t.chan, dst, l.outbox, k)
      && OwnView(if dst == o then l.own else x.locals[o].own, pids[o], s1)
    ensures View(n, pids, Apply(n, pids, x, Recv(src, dst, judgement)), o, s1)
  {
    var p := x.pipes[(src, dst)].Head();
    var l := Handled(n, dst, x.locals[dst], src, p, judgement);
    HandledSends(n, dst, x.locals[dst], src, p, judgement);
    PostMirrors(n, TakeOne(x.pipes, src, dst), t.chan, dst, l.outbox, OriginOf(dst, p), k, pids[o]);
    OneQueueChanges(x.locals, t.pending, pids[o], dst, l, s1.pending);
  }

  lemma ProposalFrame(net: N.Net, t: N.State, src: nat, dst: nat, k: nat, judgement: bool)
    requires N.Sized(net, t) && dst < net.n
    ensures var s1 := N.OnProposal(net, t, src, dst, k, judgement);
      && N.Sized(net, s1) && s1.round == t.round && s1.own == t.own
      && forall r: nat | r < net.n && r != dst :: s1.pending[r] == t.pending[r]
  {
  }

  lemma DecisionFrame(net: N.Net, t: N.State, src: nat, dst: nat, k: nat, yes: bool)
    requires N.Sized(net, t) && dst < net.n
    ensures var s1 := N.OnDecision(net, t, src, dst, k, yes);
      && N.Sized(net, s1) && s1.round == t.round && s1.own == t.own
      && forall r: nat | r < net.n && r != dst :: s1.pending[r] == t.pending[r]
  {
  }

  lemma VoteFrame(net: N.Net, t: N.State, src: nat, dst: nat, k: nat, yes: bool, judgement: bool)
    requires N.Sized(net, t) && dst < net.n
    ensures var s1 := N.OnVote(net, t, src, dst, k, yes, judgement);
      && N.Sized(net, s1) && s1.round == t.round && (dst != net.o ==> s1.own == t.own)
      && forall r: nat | r < net.n && r != dst :: s1.pending[r] == t.pending[r]
  {
  }

  /** What the protocol's invariant says of an incoming message. */
  lemma Incoming(n: nat, o: nat, s: N.State, src: nat, dst: nat)
    requires n >= 2 && o < n && I.Inv(V.SkipRingNet(n, o), s) && src < n && dst < n
    requires s.chan[(src, dst)].Waiting()
    ensures !s.chan[(src, dst)].Head().Vote? ==> dst != o && src == Parent(n, o, dst)
    ensures s.chan[(src, dst)].Head().Vote? ==> s.round > 0
  {
    var net := V.SkipRingNet(n, o);
    I.HeadKind(net, s, src, dst);
    if s.chan[(src, dst)].Head().Vote? {
      S.BallotMeansUndecided(net, s, s.round, src);
    }
  }

  lemma DecisionSends(n: nat, o: nat, t: N.State, l: Local, dst: nat, pid: int, k: nat, yes: bool)
    requires n >= 2 && o < n && N.Sized(V.SkipRingNet(n, o), t) && dst < n && dst != o && l.outbox == []
    requires pid >= 0 && Mirrors(ForPid(l.pending, pid), t.pending[dst])
    ensures var src := Parent(n, o, dst);
      var l1 := AfterDecision(n, dst, l, o, src, pid, yes);
      var s1 := N.OnDecision(V.SkipRingNet(n, o), t, src, dst, k, yes);
      Mirrors(ForPid(l1.pending, pid), s1.pending[dst]) && s1.chan == Carry(t.chan, dst, l1.outbox, k)
  {
    var sends := DecisionRefines(n, o, t, l, dst, pid, k, yes);
    NothingBefore(sends);
  }

  // ---- one message of the starter's own ----

  /** The starter's part of the system, short of the channels. */
  ghost predicate PartView(n: nat, pids: seq<int>, x: System, o: nat, t: N.State)
    requires GoodIds(n, pids) && o < n
  {
    && Sized(n, x) && N.Sized(V.SkipRingNet(n, o), t)
    && PendingMirrors(x.locals, t.pending, pids[o]) && OwnView(x.locals[o].own, pids[o], t)
  }

  lemma OwnProposal(n: nat, pids: seq<int>, x: System, src: nat, dst: nat, judgement: bool, o: nat,
                    t: N.State, k: nat)
    requires GoodIds(n, pids) && o < n && Enabled(n, x, Recv(src, dst, judgement)) && PartView(n, pids, x, o, t)
    requires dst != o && src == Parent(n, o, dst) && x.locals[dst].own.pid != pids[o]
    requires AllMirror(n, TakeOne(x.pipes, src, dst), t.chan, pids[o])
    requires x.pipes[(src, dst)].Head() == Packet(o, Frame(PROPOSAL, pids[o], x.pipes[(src, dst)].Head().frame.vote))
    ensures View(n, pids, Apply(n, pids, x, Recv(src, dst, judgement)), o,
                 N.OnProposal(V.SkipRingNet(n, o), t, src, dst, k, judgement))
  {
    var net := V.SkipRingNet(n, o);
    var sends := ProposalRefines(n, o, t, x.locals[dst].(outbox := []), dst, pids[o], k, judgement);
    NothingBefore(sends);
    ProposalFrame(net, t, src, dst, k, judgement);
    Reassembled(n, pids, x, src, dst, judgement, o, t, N.OnProposal(net, t, src, dst, k, judgement), k);
  }

  lemma OwnDecision(n: nat, pids: seq<int>, x: System, src: nat, dst: nat, judgement: bool, o: nat,
                    t: N.State, k: nat, yes: bool)
    requires GoodIds(n, pids) && o < n && Enabled(n, x, Recv(src, dst, judgement)) && PartView(n, pids, x, o, t)
    requires dst != o && src == Parent(n, o, dst)
    requires AllMirror(n, TakeOne(x.pipes, src, dst), t.chan, pids[o])
    requires x.pipes[(src, dst)].Head() == Packet(o, Frame(DECISION, pids[o], yes))
    ensures View(n, pids, Apply(n, pids, x, Recv(src, dst, judgement)), o,
                 N.OnDecision(V.SkipRingNet(n, o), t, src, dst, k, yes))
  {
    var net := V.SkipRingNet(n, o);
    DecisionSends(n, o, t, x.locals[dst].(outbox := []), dst, pids[o], k, yes);
    DecisionFrame(net, t, src, dst, k, yes);
    Reassembled(n, pids, x, src, dst, judgement, o, t, N.OnDecision(net, t, src, dst, k, yes), k);
  }

  lemma OwnInnerVote(n: nat, pids: seq<int>, x: System, src: nat, dst: nat, judgement: bool, o: nat,
                     t: N.State, k: nat, yes: bool)
    requires GoodIds(n, pids) && o < n && Enabled(n, x, Recv(src, dst, judgement)) && PartView(n, pids, x, o, t)
    requires dst != o && x.locals[dst].own.pid != pids[o]
    requires AllMirror(n, TakeOne(x.pipes, src, dst), t.chan, pids[o])
    requires x.pipes[(src, dst)].Head().frame == Frame(VOTE, pids[o], yes)
    ensures View(n, pids, Apply(n, pids, x, Recv(src, dst, judgement)), o,
                 N.OnVote(V.SkipRingNet(n, o), t, src, dst, k, yes, judgement))
  {
    var net := V.SkipRingNet(n, o);
    var sends := VoteRefines(n, o, t, x.locals[dst].(outbox := []), src, dst, pids[o], k, yes, judgement);
    NothingBefore(sends);
    VoteFrame(net, t, src, dst, k, yes, judgement);
    Reassembled(n, pids, x, src, dst, judgement, o, t, N.OnVote(net, t, src, dst, k, yes, judgement),
                if t.pending[dst] == [] then k else t.pending[dst][0].round);
  }

  lemma OwnStarterVote(n: nat, pids: seq<int>, x: System, src: nat, judgement: bool, o: nat,
                       t: N.State, k: nat, yes: bool)
    requires GoodIds(n, pids) && o < n && Enabled(n, x, Recv(src, o, judgement)) && PartView(n, pids, x, o, t)
    requires t.round > 0 && AllMirror(n, TakeOne(x.pipes, src, o), t.chan, pids[o])
    requires x.pipes[(src, o)].Head().frame == Frame(VOTE, pids[o], yes)
    ensures View(n, pids, Apply(n, pids, x, Recv(src, o, judgement)), o,
                 N.OnVote(V.SkipRingNet(n, o), t, src, o, k, yes, judgement))
  {
    var net := V.SkipRingNet(n, o);
    var sends := OwnVoteRefines(n, o, t, x.locals[o].(outbox := []), src, pids[o], k, yes, judgement);
    NothingBefore(sends);
    StarterVoteFrame(net, t, src, k, yes, judgement);
    Reassembled(n, pids, x, src, o, judgement, o, t, N.OnVote(net, t, src, o, k, yes, judgement), t.round);
  }

  lemma StarterVoteFrame(net: N.Net, t: N.State, src: nat, k: nat, yes: bool, judgement: bool)
    requires N.Sized(net, t)
    ensures var s1 := N.OnVote(net, t, src, net.o, k, yes, judgement);
      N.Sized(net, s1) && s1.round == t.round && s1.pending == t.pending
  {
  }

  lemma HeadIsLabelled(n: nat, pids: seq<int>, x: System, src: nat, dst: nat, o: nat)
    requires GoodIds(n, pids) && o < n && Tidy(n, pids, x) && src < n && dst < n
    requires x.pipes[(src, dst)].Waiting() && x.pipes[(src, dst)].Head().frame.pid == pids[o]
    ensures x.pipes[(src, dst)].Head().frame.tag != VOTE ==> x.pipes[(src, dst)].Head().origin == o
    ensures dst != o ==> x.locals[dst].own.pid != pids[o]
  {
    assert Labelled(n, pids, x.pipes[(src, dst)].sent);
    assert LabelledAs(n, pids, x.pipes[(src, dst)].Head());
  }

  /** The protocol can take the message too, and what is left corresponds. */
  lemma OwnTake(n: nat, pids: seq<int>, x: System, src: nat, dst: nat, judgement: bool, o: nat, s: N.State)
    requires GoodIds(n, pids) && o < n && View(n, pids, x, o, s)
    requires Enabled(n, x, Recv(src, dst, judgement))
    requires x.pipes[(src, dst)].Head().frame.pid == pids[o]
    ensures N.Enabled(V.SkipRingNet(n, o), s, N.Recv(src, dst, judgement))
    ensures IsFrame(x.pipes[(src, dst)].Head().frame, s.chan[(src, dst)].Head())
    ensures var t := N.Take(V.SkipRingNet(n, o), s, src, dst);
      AllMirror(n, TakeOne(x.pipes, src, dst), t.chan, pids[o]) && PartView(n, pids, x, o, t)
  {
    TakeAll(n, x, src, dst, s.chan, pids[o]);
  }

  lemma OwnRecvDown(n: nat, pids: seq<int>, x: System, src: nat, dst: nat, judgement: bool, o: nat,
                    t: N.State, m: N.Msg)
    requires GoodIds(n, pids) && o < n && Enabled(n, x, Recv(src, dst, judgement)) && PartView(n, pids, x, o, t)
    requires dst != o && src == Parent(n, o, dst) && x.locals[dst].own.pid != pids[o]
    requires var p := x.pipes[(src, dst)].Head();
      p.frame.pid == pids[o] && IsFrame(p.frame, m) && !m.Vote? && (p.frame.tag != VOTE ==> p.origin == o)
    requires AllMirror(n, TakeOne(x.pipes, src, dst), t.chan, pids[o])
    ensures var net := V.SkipRingNet(n, o);
      View(n, pids, Apply(n, pids, x, Recv(src, dst, judgement)), o,
           if m.Proposal? then N.OnProposal(net, t, src, dst, m.round, judgement)
           else N.OnDecision(net, t, src, dst, m.round, m.yes))
  {
    match m
    case Proposal(k) => OwnProposal(n, pids, x, src, dst, judgement, o, t, k);
    case Decision(k, yes) => OwnDecision(n, pids, x, src, dst, judgement, o, t, k, yes);
  }

  lemma OwnRecvUp(n: nat, pids: seq<int>, x: System, src: nat, dst: nat, judgement: bool, o: nat,
                  t: N.State, m: N.Msg)
    requires GoodIds(n, pids) && o < n && Enabled(n, x, Recv(src, dst, judgement)) && PartView(n, pids, x, o, t)
    requires t.round > 0 && (dst != o ==> x.locals[dst].own.pid != pids[o])
    requires x.pipes[(src, dst)].Head().frame.pid == pids[o]
    requires IsFrame(x.pipes[(src, dst)].Head().frame, m) && m.Vote?
    requires AllMirror(n, TakeOne(x.pipes, src, dst), t.chan, pids[o])
    ensures View(n, pids, Apply(n, pids, x, Recv(src, dst, judgement)), o,
                 N.OnVote(V.SkipRingNet(n, o), t, src, dst, m.round, m.yes, judgement))
  {
    if dst == o {
      OwnStarterVote(n, pids, x, src, judgement, o, t, m.round, m.yes);
    } else {
      OwnInnerVote(n, pids, x, src, dst, judgement, o, t, m.round, m.yes);
    }
  }

  lemma OwnRecv(n: nat, pids: seq<int>, x: System, src: nat, dst: nat, judgement: bool, o: nat, s: N.State)
      returns (s1: N.State)
    requires GoodIds(n, pids) && o < n && View(n, pids, x, o, s) && Tidy(n, pids, x)
    requires Enabled(n, x, Recv(src, dst, judgement)) && I.Inv(V.SkipRingNet(n, o), s)
    requires x.pipes[(src, dst)].Head().frame.pid == pids[o]
    ensures N.Enabled(V.SkipRingNet(n, o), s, N.Recv(src, dst, judgement))
    ensures s1 == N.Apply(V.SkipRingNet(n, o), s, N.Recv(src, dst, judgement))
    ensures View(n, pids, Apply(n, pids, x, Recv(src, dst, judgement)), o, s1)
  {
    HeadIsLabelled(n, pids, x, src, dst, o);
    OwnTake(n, pids, x, src, dst, judgement, o, s);
    Incoming(n, o, s, src, dst);
    var t, m := N.Take(V.SkipRingNet(n, o), s, src, dst), s.chan[(src, dst)].Head();
    if m.Vote? {
      OwnRecvUp(n, pids, x, src, dst, judgement, o, t, m);
    } else {
      OwnRecvDown(n, pids, x, src, dst, judgement, o, t, m);
    }
    s1 := N.Apply(V.SkipRingNet(n, o), s, N.Recv(src, dst, judgement));
  }

  // ---- every run ----

  lemma InitTidy(n: nat, pids: seq<int>)
    requires GoodIds(n, pids)
    ensures Tidy(n, pids, Init(n))
  {
  }

  lemma InitMirrors(n: nat, o: nat, pid: int)
    requires n >= 2 && o < n
    ensures AllMirror(n, Init(n).pipes, N.Init(V.SkipRingNet(n, o)).chan, pid)
  {
    assert PipeMirrors(Pipe([], 0), N.Channel([], 0), pid);
  }

  lemma InitPending(n: nat, pid: int)
    ensures PendingMirrors(Init(n).locals, seq(n, _ => []), pid)
  {
    assert Mirrors(ForPid(IDLE.pending, pid), []);
  }

  lemma InitView(n: nat, pids: seq<int>, o: nat)
    requires GoodIds(n, pids) && o < n
    ensures View(n, pids, Init(n), o, N.Init(V.SkipRingNet(n, o)))
  {
    InitMirrors(n, o, pids[o]);
    InitPending(n, pids[o]);
    assert N.Init(V.SkipRingNet(n, o)).pending == seq(n, _ => []);
  }

  lemma {:induction false} RunTidy(n: nat, pids: seq<int>, acts: seq<Action>)
    requires GoodIds(n, pids) && Run(n, pids, acts).Some?
    ensures Tidy(n, pids, Run(n, pids, acts).value)
  {
    if acts == [] {
      InitTidy(n, pids);
    } else {
      var front := acts[..|acts| - 1];
      RunTidy(n, pids, front);
      var x := Run(n, pids, front).value;
      match acts[|acts| - 1]
      case Submit(r) => SubmitTidy(n, pids, x, r);
      case Recv(src, dst, judgement) => RecvTidy(n, pids, x, src, dst, judgement);
    }
  }

  lemma OneMore(net: N.Net, acts: seq<N.Action>, a: N.Action)
    requires N.Run(net, acts).Some? && N.Enabled(net, N.Run(net, acts).value, a)
    ensures N.Run(net, acts + [a]) == Some(N.Apply(net, N.Run(net, acts).value, a))
  {
    assert (acts + [a])[..|acts|] == acts;
  }

  /** What the starter has seen so far leads to its state `s`. */
  ghost predicate Follows(n: nat, o: nat, seen: seq<N.Action>, s: N.State)
    requires n >= 2 && o < n
  {
    N.Run(V.SkipRingNet(n, o), seen) == Some(s)
  }

  lemma FollowsInv(n: nat, o: nat, seen: seq<N.Action>, s: N.State)
    requires n >= 2 && o < n && Follows(n, o, seen, s)
    ensures I.Inv(V.SkipRingNet(n, o), s)
  {
    V.SkipRingIsWell(n, o);
    S.RunInv(V.SkipRingNet(n, o), seen);
  }

  /** The protocol makes the step the starter sees, if it sees one. */
  ghost predicate Steps(n: nat, o: nat, s: N.State, seen: seq<N.Action>, s1: N.State)
    requires n >= 2 && o < n
  {
    if seen == [] then s1 == s
    else
      && |seen| == 1 && N.Enabled(V.SkipRingNet(n, o), s, seen[0])
      && s1 == N.Apply(V.SkipRingNet(n, o), s, seen[0])
  }

  lemma StepView(n: nat, pids: seq<int>, x: System, a: Action, o: nat, s: N.State) returns (s1: N.State)
    requires GoodIds(n, pids) && o < n && View(n, pids, x, o, s) && Tidy(n, pids, x)
    requires Enabled(n, x, a) && I.Inv(V.SkipRingNet(n, o), s)
    ensures Steps(n, o, s, Seen(n, pids, x, a, o), s1) && View(n, pids, Apply(n, pids, x, a), o, s1)
  {
    s1 := s;
    match a
    case Submit(r) =>
      if r == o {
        OwnSubmit(n, pids, x, o, s);
        s1 := N.OnSubmit(V.SkipRingNet(n, o), s);
      } else {
        OtherSubmit(n, pids, x, r, o, s);
      }
    case Recv(src, dst, judgement) =>
      if x.pipes[(src, dst)].Head().frame.pid == pids[o] {
        s1 := OwnRecv(n, pids, x, src, dst, judgement, o, s);
      } else {
        OtherRecv(n, pids, x, src, dst, judgement, o, s);
      }
  }

  lemma StepFollows(n: nat, o: nat, before: seq<N.Action>, s: N.State, seen: seq<N.Action>, s1: N.State)
    requires n >= 2 && o < n && Follows(n, o, before, s) && Steps(n, o, s, seen, s1)
    ensures Follows(n, o, before + seen, s1)
  {
    if seen == [] {
      assert before + seen == before;
    } else {
      OneMore(V.SkipRingNet(n, o), before, seen[0]);
      assert seen == [seen[0]];
    }
  }

  /** Each starter sees a run of the protocol, whatever the other starters do meanwhile. */
  lemma {:induction false} ProjectionIsRun(n: nat, pids: seq<int>, acts: seq<Action>, o: nat)
      returns (s: N.State)
    requires GoodIds(n, pids) && Run(n, pids, acts).Some? && o < n
    ensures N.Run(V.SkipRingNet(n, o), Projection(n, pids, acts, o)) == Some(s)
    ensures View(n, pids, Run(n, pids, acts).value, o, s) && V.Reachable(n, o, s)
  {
    if acts == [] {
      InitView(n, pids, o);
      s := N.Init(V.SkipRingNet(n, o));
    } else {
      var front := acts[..|acts| - 1];
      var s0 := ProjectionIsRun(n, pids, front, o);
      RunTidy(n, pids, front);
      var x, a := Run(n, pids, front).value, acts[|acts| - 1];
      FollowsInv(n, o, Projection(n, pids, front, o), s0);
      s := StepView(n, pids, x, a, o, s0);
      StepFollows(n, o, Projection(n, pids, front, o), s0, Seen(n, pids, x, a, o), s);
    }
    assert N.Run(V.SkipRingNet(n, o), Projection(n, pids, acts, o)) == Some(s);
  }

  // ---- what holds of every starter ----

  /** How many of these frames are decisions. */
  function DecisionFrames(fs: seq<Frame>): nat {
    if fs == [] then 0 else DecisionFrames(fs[..|fs| - 1]) + if fs[|fs| - 1].tag == DECISION then 1 else 0
  }

  lemma {:induction false} DecisionsInFrames(fs: seq<Frame>, ms: seq<N.Msg>)
    requires AreFrames(fs, ms)
    ensures DecisionFrames(fs) == I.CountD(ms)
  {
    if fs != [] {
      var last := |fs| - 1;
      assert AreFrames(fs[..last], ms[..last]) && IsFrame(fs[last], ms[last]);
      DecisionsInFrames(fs[..last], ms[..last]);
    }
  }

  /** The frames of a starter in the pipe to a rank. */
  function FramesTo(x: System, pid: int, a: nat, b: nat): seq<Frame>
    requires (a, b) in x.pipes
  {
    Frames(x.pipes[(a, b)].sent, pid)
  }

  lemma PipeFrames(n: nat, x: System, chan: N.Channels, pid: int, a: nat, b: nat)
    requires AllMirror(n, x.pipes, chan, pid) && a < n && b < n
    ensures (a, b) in x.pipes && (a, b) in chan && AreFrames(FramesTo(x, pid, a, b), chan[(a, b)].sent)
  {
    assert PipeMirrors(x.pipes[(a, b)], chan[(a, b)], pid);
  }

  /** With all starters at work, the decisions a starter sends out are those of its rounds one by one:
      the `i`-th frame, when a decision, closes the round after all those decided before it, and it
      says yes exactly if all other ranks judged the proposal of that very round yes and so did the
      starter in the end. */
  lemma DecisionsAreUnanimous(
      n: nat, pids: seq<int>, acts: seq<Action>, x: System, o: nat, c: nat, fs: seq<Frame>, i: nat)
      returns (s: N.State)
    requires GoodIds(n, pids) && Run(n, pids, acts) == Some(x) && o < n && c < n
    requires (o, c) in x.pipes && fs == FramesTo(x, pids[o], o, c)
    requires i < |fs| && fs[i].tag == DECISION
    ensures N.Run(V.SkipRingNet(n, o), Projection(n, pids, acts, o)) == Some(s)
    ensures V.Settled(n, o, s, DecisionFrames(fs[..i]) + 1, fs[i].vote)
  {
    s := ProjectionIsRun(n, pids, acts, o);
    SentDecision(n, o, s, x, pids[o], c, fs, i);
  }

  lemma SentDecision(n: nat, o: nat, s: N.State, x: System, pid: int, c: nat, fs: seq<Frame>, i: nat)
    requires V.Reachable(n, o, s) && AllMirror(n, x.pipes, s.chan, pid) && c < n
    requires (o, c) in x.pipes && fs == FramesTo(x, pid, o, c)
    requires i < |fs| && fs[i].tag == DECISION
    ensures V.Settled(n, o, s, DecisionFrames(fs[..i]) + 1, fs[i].vote)
  {
    PipeFrames(n, x, s.chan, pid, o, c);
    DecisionIs(fs, s.chan[(o, c)].sent, i);
    V.SentInOrder(n, o, s, c, i);
  }

  lemma DecisionIs(fs: seq<Frame>, ms: seq<N.Msg>, i: nat)
    requires AreFrames(fs, ms) && i < |fs| && fs[i].tag == DECISION
    ensures ms[i].Decision? && ms[i].yes == fs[i].vote && DecisionFrames(fs[..i]) == I.CountD(ms[..i])
  {
    assert IsFrame(fs[i], ms[i]) && AreFrames(fs[..i], ms[..i]);
    DecisionsInFrames(fs[..i], ms[..i]);
  }

  /** With all starters at work, a decision taken by a rank finds the pending proposal of its own
      starter and round, or none if that rank refused it; then the decision is a no. */
  lemma DecisionsFindTheirRound(n: nat, pids: seq<int>, acts: seq<Action>, o: nat, k: nat, t: nat)
      returns (s: N.State)
    requires GoodIds(n, pids) && Run(n, pids, acts).Some? && o < n && t < n && t != o
    ensures N.Run(V.SkipRingNet(n, o), Projection(n, pids, acts, o)) == Some(s)
    ensures N.Key(k, t) in s.h.outcome ==>
      && s.h.outcome[N.Key(k, t)] == (if I.True(s.h.judged, k, t) then Some(k) else None)
      && k in s.h.decisions && (s.h.outcome[N.Key(k, t)] == None ==> !s.h.decisions[k])
  {
    s := ProjectionIsRun(n, pids, acts, o);
    if N.Key(k, t) in s.h.outcome {
      V.DecisionMatchesItsRound(n, o, s, k, t);
    }
  }

  ghost predicate Drained(n: nat, x: System) {
    forall a: nat, b: nat | a < n && b < n && (a, b) in x.pipes :: !x.pipes[(a, b)].Waiting()
  }

  lemma DrainedIsIdle(n: nat, x: System, chan: N.Channels, pid: int, s: N.State)
    requires AllMirror(n, x.pipes, chan, pid) && Drained(n, x) && s.chan == chan
    ensures V.Idle(n, s)
  {
    forall a: nat, b: nat | a < n && b < n && (a, b) in chan
      ensures !chan[(a, b)].Waiting()
    {
      var p := x.pipes[(a, b)];
      assert PipeMirrors(p, chan[(a, b)], pid);
      assert p.sent[..p.taken] == p.sent;
    }
  }

  /** With nothing left in any pipe no starter is stuck: whoever has submitted has decided. */
  lemma NobodyIsStuck(n: nat, pids: seq<int>, acts: seq<Action>, o: nat)
    requires GoodIds(n, pids) && Run(n, pids, acts).Some? && o < n
    requires Drained(n, Run(n, pids, acts).value)
    ensures var x := Run(n, pids, acts).value;
      |x.locals| == n && (x.locals[o].own.pid == -1 || x.locals[o].own.decided)
  {
    var s := ProjectionIsRun(n, pids, acts, o);
    var x := Run(n, pids, acts).value;
    DrainedIsIdle(n, x, s.chan, pids[o], s);
    V.NeverStuck(n, o, s);
  }

  /** Nor is any rank still waiting for votes on anybody's proposal. */
  lemma NothingStaysPending(n: nat, pids: seq<int>, acts: seq<Action>, o: nat, t: nat)
    requires GoodIds(n, pids) && Run(n, pids, acts).Some? && o < n && t < n
    requires Drained(n, Run(n, pids, acts).value)
    ensures var x := Run(n, pids, acts).value;
      |x.locals| == n && ForPid(x.locals[t].pending, pids[o]) == []
  {
    var s := ProjectionIsRun(n, pids, acts, o);
    var x := Run(n, pids, acts).value;
    DrainedIsIdle(n, x, s.chan, pids[o], s);
    V.IdleMeansNonePending(n, o, s, t);
  }
}
