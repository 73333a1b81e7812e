/** What the applications are handed while all starters are at work: the pickup lists that every
    rank's handlers fill from its one queue of pending proposals. */
module Pickups {
  import opened Common
  import opened SkipRing
  import opened Handlers
  import opened Joint
  import N = VotingNet
  import I = VotingInv
  import V = Voting

  /** How many accepted proposals of this id are among what was handed over. */
  function AcceptedOf(ps: seq<Pickup>, pid: int): nat {
    if ps == [] then 0
    else
      var last := ps[|ps| - 1];
      AcceptedOf(ps[..|ps| - 1], pid) + if last.Accepted? && last.proposal.pid == pid then 1 else 0
  }

  /** How many of these frames are decisions of yes. */
  function YesFrames(fs: seq<Frame>): nat {
    if fs == [] then 0
    else
      var last := fs[|fs| - 1];
      YesFrames(fs[..|fs| - 1]) + if last.tag == DECISION && last.vote then 1 else 0
  }

  /** The decisions of yes, of one id, that have been taken from the pipe. */
  function YesTaken(p: Pipe, pid: int): nat
    requires p.taken <= |p.sent|
  {
    YesFrames(Frames(p.sent[..p.taken], pid))
  }

  /** The id is that of a starter other than `t`. */
  ghost predicate OfOther(n: nat, pids: seq<int>, t: nat, pid: int)
    requires GoodIds(n, pids)
  {
    exists o: nat | o < n && o != t :: pids[o] == pid
  }

  /** What rank `t` can be handed: another starter's accepted proposal, marked so, or its no. */
  ghost predicate Fit(n: nat, pids: seq<int>, t: nat, item: Pickup)
    requires GoodIds(n, pids)
  {
    match item
    case Accepted(proposal) => proposal.vote && OfOther(n, pids, t, proposal.pid)
    case Unmatched(pid, vote) => !vote && OfOther(n, pids, t, pid)
  }

  ghost predicate AllFit(n: nat, pids: seq<int>, t: nat, ps: seq<Pickup>)
    requires GoodIds(n, pids)
  {
    forall i | 0 <= i < |ps| :: Fit(n, pids, t, ps[i])
  }

  ghost predicate HandedAt(n: nat, pids: seq<int>, x: System, o: nat, t: nat)
    requires GoodIds(n, pids) && Sized(n, x) && o < n && t < n && t != o
  {
    var e := (Parent(n, o, t), t);
    && e in x.pipes && x.pipes[e].taken <= |x.pipes[e].sent|
    && AcceptedOf(x.locals[t].pickup, pids[o]) == YesTaken(x.pipes[e], pids[o])
  }

  /** At every rank, of each other starter one proposal for each yes taken, and nothing unfit. */
  ghost predicate Handed(n: nat, pids: seq<int>, x: System)
    requires GoodIds(n, pids)
  {
    && Sized(n, x)
    && (forall t: nat | t < n :: AllFit(n, pids, t, x.locals[t].pickup))
    && forall o: nat, t: nat | o < n && t < n && t != o :: HandedAt(n, pids, x, o, t)
  }

  // ---- pipes ----

  lemma OneMoreTaken(p: Pipe, pid: int)
    requires p.Waiting()
    ensures var f := p.Head().frame;
      YesTaken(p.(taken := p.taken + 1), pid)
        == YesTaken(p, pid) + if f.pid == pid && f.tag == DECISION && f.vote then 1 else 0
  {
    var taken := p.sent[..p.taken];
    assert p.sent[..p.taken + 1] == taken + [p.Head()];
    FramesMore(taken, p.Head(), pid);
    YesMore(Frames(taken, pid), p.Head().frame);
  }

  lemma YesMore(fs: seq<Frame>, f: Frame)
    ensures YesFrames(fs + [f]) == YesFrames(fs) + if f.tag == DECISION && f.vote then 1 else 0
    ensures fs + [] == fs
  {
    assert (fs + [f])[..|fs|] == fs;
  }

  /** Posting leaves what has been taken. */
  lemma {:induction false} PostedLater(c: Pipes, r: nat, sends: seq<Sent>, origin: nat, e: (nat, nat))
    requires e in c
    ensures var d := Post(c, r, sends, origin);
      e in d && d[e].taken == c[e].taken && c[e].sent <= d[e].sent
  {
    if sends != [] {
      PostedLater(c, r, sends[..|sends| - 1], origin, e);
    }
  }

  lemma TakenStays(c: Pipes, r: nat, sends: seq<Sent>, origin: nat, e: (nat, nat), pid: int)
    requires e in c && c[e].taken <= |c[e].sent|
    ensures var d := Post(c, r, sends, origin);
      e in d && d[e].taken <= |d[e].sent| && YesTaken(d[e], pid) == YesTaken(c[e], pid)
  {
    PostedLater(c, r, sends, origin, e);
    var d := Post(c, r, sends, origin);
    assert d[e].sent[..d[e].taken] == c[e].sent[..c[e].taken];
  }

  // ---- one handler ----

  predicate Found(l: Local, pid: int) {
    pid >= 0 && First(l.pending, pid) < |l.pending|
  }

  lemma OneMoreHanded(ps: seq<Pickup>, x: Pickup, pid: int)
    ensures AcceptedOf(ps + [x], pid)
      == AcceptedOf(ps, pid) + if x.Accepted? && x.proposal.pid == pid then 1 else 0
  {
    assert (ps + [x])[..|ps|] == ps;
  }

  /** Only a decision hands something over. */
  lemma HandlerHands(n: nat, dst: nat, l: Local, src: nat, p: Packet, judgement: bool, pid: int)
    requires n >= 2
    requires p.frame.tag == DECISION && p.frame.vote ==> Found(l, p.frame.pid)
    ensures AcceptedOf(Handled(n, dst, l, src, p, judgement).pickup, pid)
      == AcceptedOf(l.pickup, pid)
        + if p.frame.tag == DECISION && p.frame.vote && p.frame.pid == pid then 1 else 0
  {
    if p.frame.tag == DECISION {
      var i := First(l.pending, p.frame.pid);
      if !Found(l, p.frame.pid) {
        OneMoreHanded(l.pickup, Unmatched(p.frame.pid, p.frame.vote), pid);
      } else if p.frame.vote {
        OneMoreHanded(l.pickup, Accepted(l.pending[i].(vote := true)), pid);
      } else {
        assert l.pickup + [] == l.pickup;
      }
    } else {
      OthersHandNothing(n, dst, l, src, p, judgement);
    }
  }

  lemma HandlerFits(n: nat, pids: seq<int>, dst: nat, l: Local, src: nat, p: Packet, judgement: bool)
    requires GoodIds(n, pids) && AllFit(n, pids, dst, l.pickup)
    requires p.frame.tag == DECISION ==>
      (p.frame.vote ==> Found(l, p.frame.pid)) && OfOther(n, pids, dst, p.frame.pid)
    ensures AllFit(n, pids, dst, Handled(n, dst, l, src, p, judgement).pickup)
  {
    if p.frame.tag != DECISION {
      OthersHandNothing(n, dst, l, src, p, judgement);
    }
  }

  lemma OthersHandNothing(n: nat, dst: nat, l: Local, src: nat, p: Packet, judgement: bool)
    requires n >= 2 && p.frame.tag != DECISION
    ensures Handled(n, dst, l, src, p, judgement).pickup == l.pickup
  {
  }

  /** What is handed over comes last; nothing handed over before is lost or changes place. */
  lemma HandedInOrder(n: nat, dst: nat, l: Local, src: nat, p: Packet, judgement: bool)
    requires n >= 2
    ensures l.pickup <= Handled(n, dst, l, src, p, judgement).pickup
  {
  }

  /** The sender is the rank's parent in the tree of the id's starter. */
  ghost predicate FromParent(n: nat, pids: seq<int>, pid: int, src: nat, dst: nat)
    requires GoodIds(n, pids)
  {
    forall o: nat | o < n && pid == pids[o] :: IsChild(n, o, src, dst)
  }

  /** A decision comes from the parent in its starter's tree; a yes finds its proposal. */
  lemma YesIsFound(n: nat, pids: seq<int>, x: System, src: nat, dst: nat, o: nat, s: N.State)
    requires GoodIds(n, pids) && o < n && View(n, pids, x, o, s) && V.Reachable(n, o, s)
    requires Enabled(n, x, Recv(src, dst, true))
    requires var f := x.pipes[(src, dst)].Head().frame; f.tag == DECISION && f.pid == pids[o]
    ensures IsChild(n, o, src, dst)
    ensures x.pipes[(src, dst)].Head().frame.vote ==> Found(x.locals[dst], pids[o])
  {
    OwnTake(n, pids, x, src, dst, true, o, s);
    V.YesIsAwaited(n, o, s, src, dst);
    DropMirrors(x.locals[dst].pending, s.pending[dst], pids[o]);
  }

  // ---- every run ----

  lemma SubmitHands(n: nat, pids: seq<int>, x: System, r: nat)
    requires GoodIds(n, pids) && Handed(n, pids, x) && Enabled(n, x, Submit(r))
    ensures Handed(n, pids, Apply(n, pids, x, Submit(r)))
  {
    var x1 := Apply(n, pids, x, Submit(r));
    var l := AfterSubmit(n, r, x.locals[r].(outbox := []), pids[r], false);
    forall a: nat, b: nat | a < n && b < n
      ensures (a, b) in x1.pipes
    {
      PostedLater(x.pipes, r, l.outbox, r, (a, b));
    }
    forall o: nat, t: nat | o < n && t < n && t != o
      ensures HandedAt(n, pids, x1, o, t)
    {
      assert HandedAt(n, pids, x, o, t);
      TakenStays(x.pipes, r, l.outbox, r, (Parent(n, o, t), t), pids[o]);
    }
  }

  /** The rank that takes the packet, and one starter. */
  lemma TakerHands(
      n: nat, pids: seq<int>, x: System, src: nat, dst: nat, judgement: bool, o: nat, l: Local, pipes: Pipes)
    requires GoodIds(n, pids) && Handed(n, pids, x) && Enabled(n, x, Recv(src, dst, judgement))
    requires o < n && dst != o && pipes == TakeOne(x.pipes, src, dst)
    requires var f := x.pipes[(src, dst)].Head().frame;
      && (f.tag == DECISION && f.pid == pids[o] ==> IsChild(n, o, src, dst))
      && AcceptedOf(l.pickup, pids[o])
        == AcceptedOf(x.locals[dst].pickup, pids[o])
          + if f.tag == DECISION && f.vote && f.pid == pids[o] then 1 else 0
    ensures var e := (Parent(n, o, dst), dst);
      && e in pipes && pipes[e].taken <= |pipes[e].sent|
      && AcceptedOf(l.pickup, pids[o]) == YesTaken(pipes[e], pids[o])
  {
    assert HandedAt(n, pids, x, o, dst);
    OneMoreTaken(x.pipes[(src, dst)], pids[o]);
  }

  lemma RecvHands(n: nat, pids: seq<int>, x: System, src: nat, dst: nat, judgement: bool)
    requires GoodIds(n, pids) && Handed(n, pids, x) && Enabled(n, x, Recv(src, dst, judgement))
    requires var f := x.pipes[(src, dst)].Head().frame;
      f.tag == DECISION ==>
        && (f.vote ==> Found(x.locals[dst], f.pid)) && FromParent(n, pids, f.pid, src, dst)
        && OfOther(n, pids, dst, f.pid)
    ensures Handed(n, pids, Apply(n, pids, x, Recv(src, dst, judgement)))
  {
    var x1 := Apply(n, pids, x, Recv(src, dst, judgement));
    var p := x.pipes[(src, dst)].Head();
    var l := Handled(n, dst, x.locals[dst], src, p, judgement);
    var taken := TakeOne(x.pipes, src, dst);
    forall a: nat, b: nat | a < n && b < n
      ensures (a, b) in x1.pipes
    {
      PostedLater(taken, dst, l.outbox, OriginOf(dst, p), (a, b));
    }
    forall t: nat | t < n
      ensures AllFit(n, pids, t, x1.locals[t].pickup)
    {
      HandlerFits(n, pids, dst, x.locals[dst], src, p, judgement);
    }
    forall o: nat, t: nat | o < n && t < n && t != o
      ensures HandedAt(n, pids, x1, o, t)
    {
      assert HandedAt(n, pids, x, o, t);
      if t == dst {
        HandlerHands(n, dst, x.locals[dst], src, p, judgement, pids[o]);
        TakerHands(n, pids, x, src, dst, judgement, o, l, taken);
      }
      TakenStays(taken, dst, l.outbox, OriginOf(dst, p), (Parent(n, o, t), t), pids[o]);
    }
  }

  lemma HeadDecision(n: nat, pids: seq<int>, acts: seq<Action>, x: System, src: nat, dst: nat)
    requires GoodIds(n, pids) && Run(n, pids, acts) == Some(x) && Enabled(n, x, Recv(src, dst, true))
    requires x.pipes[(src, dst)].Head().frame.tag == DECISION
    ensures var f := x.pipes[(src, dst)].Head().frame;
      && (f.vote ==> Found(x.locals[dst], f.pid)) && FromParent(n, pids, f.pid, src, dst)
      && OfOther(n, pids, dst, f.pid)
  {
    RunTidy(n, pids, acts);
    var o := HeadOrigin(n, pids, x, src, dst);
    var s := ProjectionIsRun(n, pids, acts, o);
    YesIsFound(n, pids, x, src, dst, o, s);
    OnlyOwner(n, pids, o, src, dst);
  }

  lemma HeadOrigin(n: nat, pids: seq<int>, x: System, src: nat, dst: nat) returns (o: nat)
    requires GoodIds(n, pids) && Tidy(n, pids, x) && Enabled(n, x, Recv(src, dst, true))
    requires x.pipes[(src, dst)].Head().frame.tag == DECISION
    ensures o < n && x.pipes[(src, dst)].Head().frame.pid == pids[o]
  {
    var p := x.pipes[(src, dst)].Head();
    assert Labelled(n, pids, x.pipes[(src, dst)].sent) && LabelledAs(n, pids, p);
    o := p.origin;
  }

  lemma OnlyOwner(n: nat, pids: seq<int>, o: nat, src: nat, dst: nat)
    requires GoodIds(n, pids) && o < n && IsChild(n, o, src, dst)
    ensures FromParent(n, pids, pids[o], src, dst) && OfOther(n, pids, dst, pids[o])
  {
  }

  lemma InitHands(n: nat, pids: seq<int>)
    requires GoodIds(n, pids)
    ensures Handed(n, pids, Init(n))
  {
    forall o: nat, t: nat | o < n && t < n && t != o
      ensures HandedAt(n, pids, Init(n), o, t)
    {
    }
  }

  lemma {:induction false} RunHands(n: nat, pids: seq<int>, acts: seq<Action>)
    requires GoodIds(n, pids) && Run(n, pids, acts).Some?
    ensures Handed(n, pids, Run(n, pids, acts).value)
  {
    if acts == [] {
      InitHands(n, pids);
    } else {
      var front := acts[..|acts| - 1];
      RunHands(n, pids, front);
      var x := Run(n, pids, front).value;
      match acts[|acts| - 1]
      case Submit(r) => SubmitHands(n, pids, x, r);
      case Recv(src, dst, judgement) =>
        if x.pipes[(src, dst)].Head().frame.tag == DECISION {
          HeadDecision(n, pids, front, x, src, dst);
        }
        RecvHands(n, pids, x, src, dst, judgement);
    }
  }

  /** No application is ever handed a decision of yes without the proposal it is about, nor anything
      of its own rank. */
  lemma NoYesUnmatched(n: nat, pids: seq<int>, acts: seq<Action>, x: System, t: nat, i: nat)
    requires GoodIds(n, pids) && Run(n, pids, acts) == Some(x) && t < n
    ensures |x.locals| == n
    ensures i < |x.locals[t].pickup| && x.locals[t].pickup[i].Unmatched? ==> !x.locals[t].pickup[i].vote
    ensures i < |x.locals[t].pickup| ==> Fit(n, pids, t, x.locals[t].pickup[i])
  {
    RunHands(n, pids, acts);
  }

  /** An application has been handed as many proposals of a starter as its rank has taken yes
      decisions of that starter from its parent in the starter's tree. */
  lemma OneProposalPerYes(n: nat, pids: seq<int>, acts: seq<Action>, x: System, o: nat, t: nat)
    requires GoodIds(n, pids) && Run(n, pids, acts) == Some(x) && o < n && t < n && t != o
    ensures |x.locals| == n
    ensures var e := (Parent(n, o, t), t);
      && e in x.pipes && x.pipes[e].taken <= |x.pipes[e].sent|
      && AcceptedOf(x.locals[t].pickup, pids[o]) == YesTaken(x.pipes[e], pids[o])
  {
    RunHands(n, pids, acts);
    assert HandedAt(n, pids, x, o, t);
  }

  // ---- refusals ----

  /** How many decisions without a proposal, of this id, are among what was handed over. */
  function UnmatchedOf(ps: seq<Pickup>, pid: int): nat {
    if ps == [] then 0
    else
      var last := ps[|ps| - 1];
      UnmatchedOf(ps[..|ps| - 1], pid) + if last.Unmatched? && last.pid == pid then 1 else 0
  }

  lemma OneMoreUnmatched(ps: seq<Pickup>, x: Pickup, pid: int)
    ensures UnmatchedOf(ps + [x], pid) == UnmatchedOf(ps, pid) + if x.Unmatched? && x.pid == pid then 1 else 0
  {
    assert (ps + [x])[..|ps|] == ps;
  }

  /** A decision that finds no proposal is handed over as it is. */
  lemma HandlerUnmatched(n: nat, dst: nat, l: Local, src: nat, p: Packet, judgement: bool, pid: int)
    requires n >= 2
    ensures UnmatchedOf(Handled(n, dst, l, src, p, judgement).pickup, pid)
      == UnmatchedOf(l.pickup, pid)
        + if p.frame.tag == DECISION && !Found(l, p.frame.pid) && p.frame.pid == pid then 1 else 0
  {
    if p.frame.tag == DECISION {
      var i := First(l.pending, p.frame.pid);
      if !Found(l, p.frame.pid) {
        OneMoreUnmatched(l.pickup, Unmatched(p.frame.pid, p.frame.vote), pid);
      } else if p.frame.vote {
        OneMoreUnmatched(l.pickup, Accepted(l.pending[i].(vote := true)), pid);
      } else {
        assert l.pickup + [] == l.pickup;
      }
    } else {
      OthersHandNothing(n, dst, l, src, p, judgement);
    }
  }

  /** What rank `t` was handed for want of a proposal of `o` are the rounds it found nothing of. */
  ghost predicate Refused(n: nat, pids: seq<int>, x: System, o: nat, s: N.State, t: nat)
    requires GoodIds(n, pids) && Sized(n, x) && o < n && t < n
  {
    UnmatchedOf(x.locals[t].pickup, pids[o]) == |V.Unfound(s.h, t)|
  }

  lemma SubmitRefused(n: nat, pids: seq<int>, x: System, r: nat, o: nat, s: N.State, s1: N.State, t: nat)
    requires GoodIds(n, pids) && o < n && t < n && t != o && Enabled(n, x, Submit(r))
    requires Refused(n, pids, x, o, s, t) && Steps(n, o, s, Seen(n, pids, x, Submit(r), o), s1)
    requires Sized(n, Apply(n, pids, x, Submit(r)))
    ensures Refused(n, pids, Apply(n, pids, x, Submit(r)), o, s1, t)
  {
    assert Apply(n, pids, x, Submit(r)).locals[t].pickup == x.locals[t].pickup;
    assert s1.h.outcome == s.h.outcome;
  }

  /** The frame of another id. */
  lemma OtherRefused(
      n: nat, pids: seq<int>, x: System, src: nat, dst: nat, judgement: bool, o: nat, s: N.State, t: nat)
    requires GoodIds(n, pids) && o < n && t < n && Enabled(n, x, Recv(src, dst, judgement))
    requires x.pipes[(src, dst)].Head().frame.pid != pids[o] && Refused(n, pids, x, o, s, t)
    requires Sized(n, Apply(n, pids, x, Recv(src, dst, judgement)))
    ensures Refused(n, pids, Apply(n, pids, x, Recv(src, dst, judgement)), o, s, t)
  {
    HandlerUnmatched(n, dst, x.locals[dst], src, x.pipes[(src, dst)].Head(), judgement, pids[o]);
  }

  /** The decision that rank `dst` takes finds a proposal as the protocol says. */
  lemma HeadFound(n: nat, pids: seq<int>, x: System, src: nat, dst: nat, o: nat, s: N.State)
    requires GoodIds(n, pids) && o < n && View(n, pids, x, o, s)
    requires Enabled(n, x, Recv(src, dst, true)) && x.pipes[(src, dst)].Head().frame.pid == pids[o]
    ensures N.Enabled(V.SkipRingNet(n, o), s, N.Recv(src, dst, true))
    ensures s.chan[(src, dst)].Head().Decision? <==> x.pipes[(src, dst)].Head().frame.tag == DECISION
    ensures Found(x.locals[dst], pids[o]) <==> s.pending[dst] != []
  {
    OwnTake(n, pids, x, src, dst, true, o, s);
    DropMirrors(x.locals[dst].pending, s.pending[dst], pids[o]);
  }

  lemma OwnRefused(
      n: nat, pids: seq<int>, x: System, src: nat, dst: nat, judgement: bool, o: nat, s: N.State, t: nat)
    requires GoodIds(n, pids) && o < n && t < n && t != o && View(n, pids, x, o, s)
    requires I.Inv(V.SkipRingNet(n, o), s) && Enabled(n, x, Recv(src, dst, judgement))
    requires x.pipes[(src, dst)].Head().frame.pid == pids[o] && Refused(n, pids, x, o, s, t)
    requires Sized(n, Apply(n, pids, x, Recv(src, dst, judgement)))
    requires N.Enabled(V.SkipRingNet(n, o), s, N.Recv(src, dst, judgement))
    ensures Refused(n, pids, Apply(n, pids, x, Recv(src, dst, judgement)), o,
                    N.Apply(V.SkipRingNet(n, o), s, N.Recv(src, dst, judgement)), t)
  {
    HeadFound(n, pids, x, src, dst, o, s);
    HandlerUnmatched(n, dst, x.locals[dst], src, x.pipes[(src, dst)].Head(), judgement, pids[o]);
    V.RecvUnfound(V.SkipRingNet(n, o), s, src, dst, judgement, t);
  }

  lemma StepRefused(n: nat, pids: seq<int>, x: System, a: Action, o: nat, s: N.State, s1: N.State, t: nat)
    requires GoodIds(n, pids) && o < n && t < n && t != o && View(n, pids, x, o, s) && Enabled(n, x, a)
    requires I.Inv(V.SkipRingNet(n, o), s) && Steps(n, o, s, Seen(n, pids, x, a, o), s1)
    requires Refused(n, pids, x, o, s, t) && Sized(n, Apply(n, pids, x, a))
    ensures Refused(n, pids, Apply(n, pids, x, a), o, s1, t)
  {
    match a
    case Submit(r) => SubmitRefused(n, pids, x, r, o, s, s1, t);
    case Recv(src, dst, judgement) =>
      if x.pipes[(src, dst)].Head().frame.pid == pids[o] {
        OwnRefused(n, pids, x, src, dst, judgement, o, s, t);
      } else {
        OtherRefused(n, pids, x, src, dst, judgement, o, s, t);
      }
  }

  lemma InitRefused(n: nat, pids: seq<int>, o: nat, t: nat)
    requires GoodIds(n, pids) && o < n && t < n
    ensures Refused(n, pids, Init(n), o, N.Init(V.SkipRingNet(n, o)), t)
  {
  }

  /** `s` is what starter `o` has seen of the run. */
  ghost predicate Saw(n: nat, pids: seq<int>, acts: seq<Action>, o: nat, s: N.State)
    requires GoodIds(n, pids) && Run(n, pids, acts).Some? && o < n
  {
    N.Run(V.SkipRingNet(n, o), Projection(n, pids, acts, o)) == Some(s)
  }

  lemma {:induction false} RunRefused(n: nat, pids: seq<int>, acts: seq<Action>, o: nat, t: nat)
      returns (s: N.State)
    requires GoodIds(n, pids) && Run(n, pids, acts).Some? && o < n && t < n && t != o
    ensures Saw(n, pids, acts, o, s) && V.Reachable(n, o, s)
    ensures View(n, pids, Run(n, pids, acts).value, o, s) && Refused(n, pids, Run(n, pids, acts).value, o, s, t)
  {
    s := ProjectionIsRun(n, pids, acts, o);
    if acts == [] {
      InitRefused(n, pids, o, t);
    } else {
      var front := acts[..|acts| - 1];
      var s0 := RunRefused(n, pids, front, o, t);
      RunTidy(n, pids, front);
      var x, a := Run(n, pids, front).value, acts[|acts| - 1];
      FollowsInv(n, o, Projection(n, pids, front, o), s0);
      var s1 := StepView(n, pids, x, a, o, s0);
      StepFollows(n, o, Projection(n, pids, front, o), s0, Seen(n, pids, x, a, o), s1);
      StepRefused(n, pids, x, a, o, s0, s1, t);
    }
  }

  lemma TakenFrames(p: Pipe, c: N.Channel, pid: int)
    requires PipeMirrors(p, c, pid)
    ensures c.taken <= |c.sent| && AreFrames(Frames(p.sent[..p.taken], pid), c.sent[..c.taken])
  {
    FramesGrow(p.sent, p.taken, pid);
  }

  /** The decisions without a proposal that an application is handed, of one starter, are as many as
      the decisions of that starter its rank has taken for rounds whose proposal it did not approve. */
  lemma UnmatchedAreRefusals(n: nat, pids: seq<int>, acts: seq<Action>, x: System, o: nat, t: nat)
      returns (s: N.State)
    requires GoodIds(n, pids) && Run(n, pids, acts) == Some(x) && o < n && t < n && t != o
    ensures Saw(n, pids, acts, o, s) && |x.locals| == n
    ensures var e := (Parent(n, o, t), t);
      && e in x.pipes && x.pipes[e].taken <= |x.pipes[e].sent|
      && var k := DecisionFrames(Frames(x.pipes[e].sent[..x.pipes[e].taken], pids[o]));
      UnmatchedOf(x.locals[t].pickup, pids[o]) == |V.Refusals(s.h.judged, t, k)|
  {
    s := RunRefused(n, pids, acts, o, t);
    RefusalsOnPipe(n, pids, x, o, s, t);
  }

  lemma RefusalsOnPipe(n: nat, pids: seq<int>, x: System, o: nat, s: N.State, t: nat)
    requires GoodIds(n, pids) && o < n && t < n && t != o
    requires View(n, pids, x, o, s) && V.Reachable(n, o, s) && Refused(n, pids, x, o, s, t)
    ensures var e := (Parent(n, o, t), t);
      && e in x.pipes && x.pipes[e].taken <= |x.pipes[e].sent|
      && var k := DecisionFrames(Frames(x.pipes[e].sent[..x.pipes[e].taken], pids[o]));
      UnmatchedOf(x.locals[t].pickup, pids[o]) == |V.Refusals(s.h.judged, t, k)|
  {
    var e := (Parent(n, o, t), t);
    V.TakenDecisions(n, o, s, t);
    assert PipeMirrors(x.pipes[e], s.chan[e], pids[o]);
    TakenFrames(x.pipes[e], s.chan[e], pids[o]);
    DecisionsInFrames(Frames(x.pipes[e].sent[..x.pipes[e].taken], pids[o]), s.chan[e].sent[..s.chan[e].taken]);
  }

  // ---- at the end ----

  lemma {:induction false} YesInFrames(fs: seq<Frame>, ms: seq<N.Msg>)
    requires AreFrames(fs, ms)
    ensures YesFrames(fs) == V.YesCount(ms)
  {
    if fs != [] {
      var last := |fs| - 1;
      assert AreFrames(fs[..last], ms[..last]) && IsFrame(fs[last], ms[last]);
      YesInFrames(fs[..last], ms[..last]);
    }
  }

  /** With nothing on its way, each rank has been sent a yes for every round decided yes. */
  lemma DrainedYes(n: nat, pids: seq<int>, x: System, o: nat, s: N.State, t: nat)
    requires GoodIds(n, pids) && o < n && t < n && t != o
    requires View(n, pids, x, o, s) && V.Reachable(n, o, s) && Drained(n, x)
    ensures Parent(n, o, t) < n && (Parent(n, o, t), t) in x.pipes
    ensures YesFrames(FramesTo(x, pids[o], Parent(n, o, t), t)) == V.YesRounds(s.h.decisions, s.round)
  {
    var p := Parent(n, o, t);
    DrainedIsIdle(n, x, s.chan, pids[o], s);
    V.IdleRelaysYes(n, o, s, t);
    PipeFrames(n, x, s.chan, pids[o], p, t);
    YesInFrames(FramesTo(x, pids[o], p, t), s.chan[(p, t)].sent);
  }

  /** All or nothing: with nothing left in any pipe, every rank's application has been handed as many
      proposals of a starter as that starter has sent decisions of yes to any child of its. */
  lemma AllAreHandedTheSame(n: nat, pids: seq<int>, acts: seq<Action>, x: System, o: nat, t: nat, c: nat)
    requires GoodIds(n, pids) && Run(n, pids, acts) == Some(x) && Drained(n, x)
    requires o < n && t < n && t != o && c < n && IsChild(n, o, o, c)
    ensures |x.locals| == n && (o, c) in x.pipes
    ensures AcceptedOf(x.locals[t].pickup, pids[o]) == YesFrames(FramesTo(x, pids[o], o, c))
  {
    var s := ProjectionIsRun(n, pids, acts, o);
    OneProposalPerYes(n, pids, acts, x, o, t);
    DrainedYes(n, pids, x, o, s, t);
    DrainedYes(n, pids, x, o, s, c);
    var p := x.pipes[(Parent(n, o, t), t)];
    assert p.sent[..p.taken] == p.sent;
  }

  /** With nothing left in any pipe they are as many as the rounds whose proposal the rank refused or
      never received. */
  lemma AllRefusalsAreHanded(n: nat, pids: seq<int>, acts: seq<Action>, x: System, o: nat, t: nat)
      returns (s: N.State)
    requires GoodIds(n, pids) && Run(n, pids, acts) == Some(x) && o < n && t < n && t != o && Drained(n, x)
    ensures Saw(n, pids, acts, o, s) && |x.locals| == n
    ensures UnmatchedOf(x.locals[t].pickup, pids[o]) == |V.Refusals(s.h.judged, t, s.round)|
  {
    s := RunRefused(n, pids, acts, o, t);
    DrainedIsIdle(n, x, s.chan, pids[o], s);
    V.IdleDecisions(n, o, s, t);
  }
}
