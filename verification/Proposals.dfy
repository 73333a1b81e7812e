/** The application-side proposal record and the (time, pid) order in which all ranks execute. */
module Proposals {

  import opened Bytes

  /** enum proposal_state, a C int; the two values that the managers set. */
  type ProposalState = int
  const IN_PROGRESS: ProposalState := 0
  const APPROVED: ProposalState := 1

  /** The fields that travel; `result_obj_local` is never encoded. */
  datatype Proposal = Proposal(
    pid: int, state: ProposalState, time: nat, isLocal: int, opType: int, data: seq<byte>)

  /** Strictly older: the earlier time, and the smaller pid among equal times. */
  predicate Older(a: Proposal, b: Proposal) {
    a.time < b.time || (a.time == b.time && a.pid < b.pid)
  }

  predicate SameKey(a: Proposal, b: Proposal) {
    a.time == b.time && a.pid == b.pid
  }

  /** No record is older than the one before it. */
  predicate Sorted(s: seq<Proposal>) {
    forall i, j | 0 <= i < j < |s| :: !Older(s[j], s[i])
  }

  /** The first of the oldest records: the index both `*_get_oldest_record` scans return. */
  ghost predicate IsFirstOldest(s: seq<Proposal>, k: nat) {
    && k < |s|
    && (forall i | 0 <= i < |s| :: !Older(s[i], s[k]))
    && (forall i | 0 <= i < k :: Older(s[k], s[i]))
  }

  lemma FirstOldestUnique(s: seq<Proposal>, j: nat, k: nat)
    requires IsFirstOldest(s, j) && IsFirstOldest(s, k)
    ensures j == k
  {
    assert !Older(s[j], s[k]) && !Older(s[k], s[j]);
  }

  /** One comparison of the scan. */
  lemma ExtendOldest(s: seq<Proposal>, i: nat, k: nat)
    requires i + 1 < |s| && IsFirstOldest(s[..i + 1], k)
    ensures IsFirstOldest(s[..i + 2], if Older(s[i + 1], s[k]) then i + 1 else k)
  {
    var shorter, longer := s[..i + 1], s[..i + 2];
    assert forall j | 0 <= j < |longer| :: longer[j] == if j <= i then shorter[j] else s[i + 1];
  }

  function RemoveAt<T>(s: seq<T>, k: nat): (r: seq<T>)
    requires k < |s|
    ensures |r| == |s| - 1
    ensures forall i | 0 <= i < |r| :: r[i] == if i < k then s[i] else s[i + 1]
  {
    seq(|s| - 1, i requires 0 <= i < |s| - 1 => if i < k then s[i] else s[i + 1])
  }

  lemma RemoveAtParts<T>(s: seq<T>, k: nat)
    requires k < |s|
    ensures s == s[..k] + [s[k]] + s[k + 1..] && RemoveAt(s, k) == s[..k] + s[k + 1..]
  {
  }

  lemma RemoveAtMultiset<T>(s: seq<T>, k: nat)
    requires k < |s|
    ensures multiset(s) == multiset(RemoveAt(s, k)) + multiset{s[k]}
  {
    RemoveAtParts(s, k);
  }

  lemma {:induction false} OldestExists(s: seq<Proposal>)
    requires s != []
    ensures exists k: nat :: IsFirstOldest(s, k)
  {
    var k := 0;
    for i := 0 to |s| - 1
      invariant IsFirstOldest(s[..i + 1], k)
    {
      ExtendOldest(s, i, k);
      k := if Older(s[i + 1], s[k]) then i + 1 else k;
    }
    assert s[..|s|] == s;
  }

  /** The index of the first of the oldest records. */
  ghost function FirstOldest(s: seq<Proposal>): (k: nat)
    requires s != []
    ensures IsFirstOldest(s, k)
  {
    OldestExists(s);
    var k :| IsFirstOldest(s, k);
    k
  }

  /** Draining a queue by always taking the first of the oldest records. */
  ghost function Drain(s: seq<Proposal>): (r: seq<Proposal>)
    ensures |r| == |s|
    decreases |s|
  {
    if s == [] then []
    else
      var k := FirstOldest(s);
      [s[k]] + Drain(RemoveAt(s, k))
  }

  lemma DrainTakes(s: seq<Proposal>, k: nat)
    requires IsFirstOldest(s, k)
    ensures Drain(s) == [s[k]] + Drain(RemoveAt(s, k))
  {
    FirstOldestUnique(s, k, FirstOldest(s));
  }

  lemma {:induction false} DrainPermutes(s: seq<Proposal>)
    ensures multiset(Drain(s)) == multiset(s)
    decreases |s|
  {
    if s != [] {
      var k := FirstOldest(s);
      DrainPermutes(RemoveAt(s, k));
      RemoveAtMultiset(s, k);
    }
  }

  lemma MemberByMultiset<T>(a: seq<T>, b: seq<T>, x: T)
    requires multiset(a) == multiset(b)
    ensures x in a <==> x in b
  {
    assert x in a <==> x in multiset(a);
    assert x in b <==> x in multiset(b);
  }

  /** The drain executes in nondecreasing (time, pid) order. */
  lemma {:induction false} DrainSorts(s: seq<Proposal>)
    ensures Sorted(Drain(s))
    ensures forall i, j | 0 <= i < j < |s| ::
      Drain(s)[i].time <= Drain(s)[j].time
        && (Drain(s)[i].time == Drain(s)[j].time ==> Drain(s)[i].pid <= Drain(s)[j].pid)
    decreases |s|
  {
    if s != [] {
      var k := FirstOldest(s);
      var rest := RemoveAt(s, k);
      var tail := Drain(rest);
      DrainSorts(rest);
      DrainPermutes(rest);
      forall j | 0 <= j < |tail|
        ensures !Older(tail[j], s[k])
      {
        MemberByMultiset(tail, rest, tail[j]);
        assert tail[j] in s;
      }
    }
  }

  /** The records with the key of `x`, in queue order. */
  function WithKey(s: seq<Proposal>, x: Proposal): seq<Proposal> {
    if s == [] then []
    else (if SameKey(s[0], x) then [s[0]] else []) + WithKey(s[1..], x)
  }

  lemma {:induction false} WithKeyConcat(a: seq<Proposal>, b: seq<Proposal>, x: Proposal)
    ensures WithKey(a + b, x) == WithKey(a, x) + WithKey(b, x)
  {
    if a == [] {
      assert a + b == b;
    } else {
      WithKeyConcat(a[1..], b, x);
      assert (a + b)[1..] == a[1..] + b;
    }
  }

  lemma {:induction false} WithKeyNone(s: seq<Proposal>, x: Proposal)
    requires forall i | 0 <= i < |s| :: !SameKey(s[i], x)
    ensures WithKey(s, x) == []
  {
    if s != [] {
      WithKeyNone(s[1..], x);
    }
  }

  lemma WithKeySplit(s: seq<Proposal>, k: nat, x: Proposal)
    requires k < |s|
    ensures WithKey(s, x) == WithKey(s[..k], x) + WithKey([s[k]], x) + WithKey(s[k + 1..], x)
    ensures WithKey(RemoveAt(s, k), x) == WithKey(s[..k], x) + WithKey(s[k + 1..], x)
  {
    assert s == s[..k + 1] + s[k + 1..];
    WithKeyConcat(s[..k + 1], s[k + 1..], x);
    assert s[..k + 1] == s[..k] + [s[k]];
    WithKeyConcat(s[..k], [s[k]], x);
    assert RemoveAt(s, k) == s[..k] + s[k + 1..];
    WithKeyConcat(s[..k], s[k + 1..], x);
  }

  /** No record before the first of the oldest has its key. */
  lemma NoneBefore(s: seq<Proposal>, k: nat, x: Proposal)
    requires IsFirstOldest(s, k) && SameKey(s[k], x)
    ensures WithKey(s[..k], x) == []
  {
    WithKeyNone(s[..k], x);
  }

  lemma TakeOut(s: seq<Proposal>, k: nat, tail: seq<Proposal>, x: Proposal)
    requires k < |s| && WithKey(tail, x) == WithKey(RemoveAt(s, k), x)
    requires SameKey(s[k], x) ==> WithKey(s[..k], x) == []
    ensures WithKey([s[k]] + tail, x) == WithKey(s, x)
  {
    WithKeySplit(s, k, x);
    WithKeyConcat([s[k]], tail, x);
  }

  /** The drain is stable: records with equal keys keep their queue order. */
  lemma {:induction false} DrainIsStable(s: seq<Proposal>, x: Proposal)
    ensures WithKey(Drain(s), x) == WithKey(s, x)
    decreases |s|
  {
    if s != [] {
      var k := FirstOldest(s);
      DrainIsStable(RemoveAt(s, k), x);
      if SameKey(s[k], x) {
        NoneBefore(s, k, x);
      }
      TakeOut(s, k, Drain(RemoveAt(s, k)), x);
    }
  }

  /** All keys differ and the order is strict. */
  ghost predicate StrictlySorted(s: seq<Proposal>) {
    forall i, j | 0 <= i < j < |s| :: Older(s[i], s[j])
  }

  lemma SortedHead(a: seq<Proposal>, b: seq<Proposal>)
    requires a != [] && Sorted(a) && StrictlySorted(b) && multiset(a) == multiset(b)
    ensures b != [] && a[0] == b[0]
  {
    MemberByMultiset(a, b, a[0]);
    var i :| 0 <= i < |b| && b[i] == a[0];
    MemberByMultiset(a, b, b[0]);
    var j :| 0 <= j < |a| && a[j] == b[0];
    assert !Older(b[0], a[0]) || j == 0;
  }

  lemma TailMultiset<T>(s: seq<T>)
    requires s != []
    ensures multiset(s[1..]) == multiset(s) - multiset{s[0]}
  {
    assert s == [s[0]] + s[1..];
  }

  /** There is only one sorted arrangement of records with distinct keys. */
  lemma {:induction false} SortedUnique(a: seq<Proposal>, b: seq<Proposal>)
    requires Sorted(a) && StrictlySorted(b) && multiset(a) == multiset(b)
    ensures a == b
    decreases |a|
  {
    if a == [] {
      assert |multiset(b)| == 0;
    } else {
      SortedHead(a, b);
      TailMultiset(a);
      TailMultiset(b);
      SortedUnique(a[1..], b[1..]);
      assert a == [a[0]] + a[1..];
      assert b == [b[0]] + b[1..];
    }
  }
}
