/** A submitter keeps a copy of its own, which never crosses the network.  Here that copy meets what
    every other rank checks out of the message. */
module Submissions {
  import opened Proposals
  import opened Ledger
  import opened Agreement
  import opened Metadata
  import W = Wire
  import B = Bytes

  /** The message that carries a proposal: sent unmarked, with the state the voting manager set. */
  function Message(rank: int, p: Proposal, state: ProposalState, vote: int, timeStamp: nat): seq<B.byte>
    requires 64 + |p.data| <= W.BODY_MAX
    ensures |Message(rank, p, state, vote, timeStamp)| == W.BUF_SIZE
  {
    W.MsgBytes(rank, W.BodyBytes(p.(state := state, isLocal := 0), vote, timeStamp))
  }

  /** The copy can be submitted and its payload fits the first send. */
  predicate Submittable(p: Proposal, state: ProposalState, vote: int, timeStamp: nat) {
    && W.Encodable(p.(state := state, isLocal := 0)) && B.IsInt(vote) && B.IsLong(timeStamp)
    && |p.data| <= W.PAYLOAD_SENT
  }

  /** Up to the mark the submitter's copy is the record any other rank checks out, and both are the
      proposal submitted. */
  lemma OwnCopyIsWhatArrives(
      rank: int, p: Proposal, state: ProposalState, vote: int, timeStamp: nat, whole: seq<bool>)
    requires Submittable(p, state, vote, timeStamp)
    ensures var got := W.Travelled(Message(rank, p, state, vote, timeStamp), whole);
      && W.CanCheckOut(got) && W.CheckedOut(got) == p.(state := state, isLocal := 0)
      && OwnCopy(p, state).isLocal == 1 && OwnCopy(p, state).(isLocal := 0) == W.CheckedOut(got)
      && Shared(OwnCopy(p, state)) == Shared(W.CheckedOut(got))
  {
    W.CheckoutReadsBack(rank, p.(state := state, isLocal := 0), vote, timeStamp, whole);
  }

  /** What another rank checks out. */
  function Heard(rank: int, p: Proposal, state: ProposalState, vote: int, timeStamp: nat): Proposal
    requires Submittable(p, state, vote, timeStamp)
  {
    OwnCopyIsWhatArrives(rank, p, state, vote, timeStamp, []);
    W.CheckedOut(W.Travelled(Message(rank, p, state, vote, timeStamp), []))
  }

  lemma SharedRunConcat(a: seq<Event>, b: seq<Event>)
    ensures SharedRun(a + b) == SharedRun(a) + SharedRun(b)
  {
  }

  /** Holding the own copy instead of the checked-out record changes nothing but the mark. */
  lemma SameEvent(own: Proposal, heard: Proposal, arrivals: seq<Proposal>)
    requires Shared(own) == Shared(heard)
    ensures SharedEvent(CheckOut([own] + arrivals)) == SharedEvent(CheckOut([heard] + arrivals))
  {
    SharedCons(own, arrivals);
    SharedCons(heard, arrivals);
  }

  lemma SameRun(own: Event, heard: Event, before: seq<Event>, after: seq<Event>)
    requires SharedEvent(own) == SharedEvent(heard)
    ensures SharedRun(before + [own] + after) == SharedRun(before + [heard] + after)
  {
    SharedRunConcat(before + [own], after);
    SharedRunConcat(before + [heard], after);
    SharedRunConcat(before, [own]);
    SharedRunConcat(before, [heard]);
    assert SharedRun([own]) == SharedRun([heard]);
  }

  /** Replica agreement with the submitter: if its run would be fair had it checked the proposal out
      of its own message like everybody else, its log agrees with every other rank's. */
  lemma SubmittersAgree(
      all: seq<Proposal>, window: nat, rank: int, p: Proposal, state: ProposalState, vote: int,
      timeStamp: nat, before: seq<Event>, arrivals: seq<Proposal>, after: seq<Event>, es: seq<Event>)
    requires StrictlySorted(all) && Submittable(p, state, vote, timeStamp)
    requires Legal(EMPTY, window, before + [CheckOut([OwnCopy(p, state)] + arrivals)] + after)
    requires var received := [Heard(rank, p, state, vote, timeStamp)] + arrivals;
      FairRun(all, window, EMPTY, SharedRun(before + [CheckOut(received)] + after))
    requires Legal(EMPTY, window, es) && FairRun(all, window, EMPTY, SharedRun(es))
    ensures var own := before + [CheckOut([OwnCopy(p, state)] + arrivals)] + after;
      var l1 := SharedAll(Run(EMPTY, window, own).executed);
      var l2 := SharedAll(Run(EMPTY, window, es).executed);
      Prefix(l1, l2) || Prefix(l2, l1)
  {
    var own, heard := OwnCopy(p, state), Heard(rank, p, state, vote, timeStamp);
    OwnCopyIsWhatArrives(rank, p, state, vote, timeStamp, []);
    SameEvent(own, heard, arrivals);
    SameRun(CheckOut([own] + arrivals), CheckOut([heard] + arrivals), before, after);
    MarkedReplicasAgree(all, window, before + [CheckOut([own] + arrivals)] + after, es);
  }
}
