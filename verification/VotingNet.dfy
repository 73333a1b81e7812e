/** The IAR voting protocol of one starter over successive rounds that all reuse the same
    proposal id, as a step system over FIFO channels.  The net is any spanning tree whose
    forwarding targets are given; module `Voting` supplies the one of the skip ring. */
module VotingNet {

  import opened Common

  /** Who starts, who forwards to whom, and the tree those targets form.  The targets of one
      forward are distinct ranks, so they are kept as a set. */
  datatype Net = Net(
    n: nat,
    o: nat,
    initial: set<nat>,
    forward: (nat, nat) -> set<nat>,
    parent: seq<nat>,
    depth: seq<nat>)

  /** `round` is not part of the wire format and no handler branches on it: the frames of
      all rounds carry the same proposal id. */
  datatype Msg =
    | Proposal(round: nat)
    | Vote(round: nat, yes: bool)
    | Decision(round: nat, yes: bool)

  /** A proposal state in queue_iar_pending. */
  datatype Entry = Entry(round: nat, voteTo: nat, needed: nat, recved: nat, vote: bool)

  /** `my_own_proposal` at the starter. */
  datatype Own = Own(needed: nat, recved: nat, vote: bool, decided: bool)

  datatype Key = Key(round: nat, rank: nat)

  /** What has happened so far; no handler reads it.
      `out[r]` is everything rank r has sent down the tree. */
  datatype History = History(
    out: seq<seq<Msg>>,
    judged: map<Key, bool>,
    cast: map<Key, bool>,
    counted: set<Key>,
    self: map<nat, bool>,
    decisions: map<nat, bool>,
    outcome: map<Key, Option<nat>>)

  /** A FIFO channel: everything ever sent on it and how much of that has been taken. */
  datatype Channel = Channel(sent: seq<Msg>, taken: nat) {
    predicate Waiting() {
      taken < |sent|
    }

    function Head(): Msg
      requires Waiting()
    {
      sent[taken]
    }
  }

  type Channels = map<(nat, nat), Channel>

  datatype State = State(round: nat, own: Own, pending: seq<seq<Entry>>, chan: Channels, h: History)

  datatype Action =
    | Submit
    | Recv(src: nat, dst: nat, judgement: bool)

  function Init(net: Net): State {
    State(0, Own(0, 0, true, true), seq(net.n, _ => []),
          map a: nat, b: nat | 0 <= a < net.n && 0 <= b < net.n :: (a, b) := Channel([], 0),
          History(seq(net.n, _ => []), map[], map[], {}, map[], map[], map[]))
  }

  function SendAll(c: Channels, src: nat, to: set<nat>, m: Msg): Channels {
    map e | e in c :: if e.0 == src && e.1 in to then Channel(c[e].sent + [m], c[e].taken) else c[e]
  }

  /** Send `m` down the tree from `r` to the given targets. */
  function Spread(s: State, r: nat, to: set<nat>, m: Msg): State
    requires r < |s.h.out|
  {
    s.(chan := SendAll(s.chan, r, to, m), h := s.h.(out := s.h.out[r := s.h.out[r] + [m]]))
  }

  /** `_vote_back` */
  function VoteBack(s: State, r: nat, to: nat, k: nat, yes: bool): State {
    s.(chan := SendAll(s.chan, r, {to}, Vote(k, yes)), h := s.h.(cast := s.h.cast[Key(k, r) := yes]))
  }

  predicate Sized(net: Net, s: State) {
    && net.n >= 2 && net.o < net.n
    && |s.pending| == |s.h.out| == net.n
    && forall a: nat, b: nat | a < net.n && b < net.n :: (a, b) in s.chan
  }

  /** A fresh `my_own_proposal`. */
  function Begun(net: Net, s: State): State {
    s.(round := s.round + 1, own := Own(|net.initial|, 0, true, false))
  }

  /** RLO_submit_proposal */
  function OnSubmit(net: Net, s: State): State
    requires Sized(net, s)
  {
    Spread(Begun(net, s), net.o, net.initial, Proposal(s.round + 1))
  }

  /** _iar_proposal_handler; a proposal with the rank's own id is dropped. */
  function OnProposal(net: Net, s: State, src: nat, dst: nat, k: nat, judgement: bool): State
    requires Sized(net, s) && dst < net.n
  {
    if dst == net.o then s
    else
      var j := s.(h := s.h.(judged := s.h.judged[Key(k, dst) := judgement]));
      if !judgement then VoteBack(j, dst, src, k, false)
      else
        var to := net.forward(dst, src);
        var f := Spread(j.(pending := s.pending[dst := s.pending[dst] + [Entry(k, src, |to|, 0, true)]]),
                        dst, to, Proposal(k));
        if |to| == 0 then VoteBack(f, dst, src, k, true) else f
  }

  /** _iar_vote_handler: at the starter, or through _vote_merge on the first pending entry. */
  function OnVote(net: Net, s: State, src: nat, dst: nat, k: nat, yes: bool, judgement: bool): State
    requires Sized(net, s) && dst < net.n
  {
    var c := s.(h := s.h.(counted := s.h.counted + {Key(k, src)}));
    if dst == net.o then
      var own := s.own.(recved := s.own.recved + 1, vote := s.own.vote && yes);
      if own.recved != own.needed then c.(own := own)
      else Decide(net, c, own, judgement)
    else if s.pending[dst] == [] then c
    else
      var first := s.pending[dst][0];
      var e := first.(recved := first.recved + 1, vote := first.vote && yes);
      var m := c.(pending := s.pending[dst := s.pending[dst][0 := e]]);
      if e.recved == e.needed then VoteBack(m, dst, e.voteTo, e.round, e.vote) else m
  }

  /** The last vote is in: the starter judges its own proposal if all agreed, and _iar_decision_bcast. */
  function Decide(net: Net, s: State, own: Own, judgement: bool): State
    requires Sized(net, s)
  {
    var k := s.round;
    var yes := own.vote && judgement;
    var h := s.h.(self := if own.vote then s.h.self[k := judgement] else s.h.self,
                  decisions := s.h.decisions[k := yes]);
    Spread(s.(own := own.(vote := yes, decided := true), h := h), net.o, net.initial, Decision(k, yes))
  }

  /** _iar_decision_handler takes the first pending entry, then _bc_forward. */
  function OnDecision(net: Net, s: State, src: nat, dst: nat, k: nat, yes: bool): State
    requires Sized(net, s) && dst < net.n
  {
    var found := if s.pending[dst] == [] then None else Some(s.pending[dst][0].round);
    var rest := if s.pending[dst] == [] then [] else s.pending[dst][1..];
    var d := s.(pending := s.pending[dst := rest],
                h := s.h.(outcome := s.h.outcome[Key(k, dst) := found]));
    Spread(d, dst, net.forward(dst, src), Decision(k, yes))
  }

  predicate Enabled(net: Net, s: State, a: Action) {
    Sized(net, s) &&
    match a
    case Submit => s.own.decided
    case Recv(src, dst, _) => src < net.n && dst < net.n && s.chan[(src, dst)].Waiting()
  }

  /** Take the oldest message of the channel. */
  function Take(net: Net, s: State, src: nat, dst: nat): (t: State)
    requires Enabled(net, s, Recv(src, dst, true))
    ensures Sized(net, t)
  {
    var c := s.chan[(src, dst)];
    s.(chan := s.chan[(src, dst) := c.(taken := c.taken + 1)])
  }

  function Apply(net: Net, s: State, a: Action): State
    requires Enabled(net, s, a)
  {
    match a
    case Submit => OnSubmit(net, s)
    case Recv(src, dst, judgement) =>
      var t := Take(net, s, src, dst);
      match s.chan[(src, dst)].Head()
      case Proposal(k) => OnProposal(net, t, src, dst, k, judgement)
      case Vote(k, yes) => OnVote(net, t, src, dst, k, yes, judgement)
      case Decision(k, yes) => OnDecision(net, t, src, dst, k, yes)
  }

  function Run(net: Net, acts: seq<Action>): Option<State> {
    if acts == [] then Some(Init(net))
    else
      match Run(net, acts[..|acts| - 1])
      case None => None
      case Some(s) =>
        var a := acts[|acts| - 1];
        if Enabled(net, s, a) then Some(Apply(net, s, a)) else None
  }
}
