/** The sends of one broadcast, taken over all ranks. */
module SpanningTree {
  import opened Common
  import opened SkipRing

  /** What rank `r` sends of a broadcast from `o`. */
  function Sends(n: nat, o: nat, r: nat): seq<nat>
    requires n >= 2 && o < n && r < n
  {
    if r == o then Initial(n, o) else Forwards(n, r, o, Parent(n, o, r))
  }

  lemma SendsAreChildren(n: nat, o: nat, r: nat)
    requires n >= 2 && o < n && r < n
    ensures ListsChildren(n, o, r, Sends(n, o, r))
  {
    if r == o {
      InitialSends(n, o);
    } else {
      ForwardSends(n, o, r);
    }
  }

  /** Each rank but the origin is sent the message by exactly one rank, and by that one once; the
      origin by nobody. */
  lemma EveryRankOnce(n: nat, o: nat, t: nat, r: nat)
    requires n >= 2 && o < n && t < n && r < n
    ensures t in Sends(n, o, r) <==> t != o && r == Parent(n, o, t)
    ensures multiset(Sends(n, o, r))[t] <= 1
  {
    SendsAreChildren(n, o, r);
    CountOnce(Sends(n, o, r), t);
  }

  /** How much each rank sends. */
  function SendCounts(n: nat, o: nat): seq<nat>
    requires n >= 2 && o < n
  {
    seq(n, r requires 0 <= r < n => |Sends(n, o, r)|)
  }

  /** The ranks whose message comes from one of the first `k` ranks. */
  function Served(n: nat, o: nat, k: nat): set<nat>
    requires o < n
  {
    set t | 0 <= t < n && t != o && Parent(n, o, t) < k
  }

  lemma ServedGrows(n: nat, o: nat, k: nat)
    requires n >= 2 && o < n && k < n
    ensures var here := Elements(Sends(n, o, k));
      here !! Served(n, o, k) && Served(n, o, k + 1) == Served(n, o, k) + here
  {
    SendsAreChildren(n, o, k);
    forall t: nat
      ensures t in Served(n, o, k + 1) <==> t in Served(n, o, k) || t in Elements(Sends(n, o, k))
    {
      assert t in Elements(Sends(n, o, k)) <==> IsChild(n, o, k, t);
    }
  }

  lemma UnionSize(a: set<nat>, b: set<nat>)
    requires a !! b
    ensures |a + b| == |a| + |b|
  {
  }

  lemma SendsDiffer(n: nat, o: nat, k: nat)
    requires n >= 2 && o < n && k < n
    ensures |Elements(Sends(n, o, k))| == |Sends(n, o, k)|
  {
    SendsAreChildren(n, o, k);
    ElementCount(Sends(n, o, k));
  }

  lemma ServedGrowsBy(n: nat, o: nat, k: nat)
    requires n >= 2 && o < n && k < n
    ensures |Served(n, o, k + 1)| == |Served(n, o, k)| + |Sends(n, o, k)|
  {
    ServedGrows(n, o, k);
    SendsDiffer(n, o, k);
    UnionSize(Served(n, o, k), Elements(Sends(n, o, k)));
  }

  lemma NobodyServed(n: nat, o: nat)
    requires o < n
    ensures |Served(n, o, 0)| == 0
  {
    assert Served(n, o, 0) == {};
  }

  lemma {:induction false} Telescopes(c: seq<nat>, total: seq<nat>)
    requires |total| == |c| + 1 && total[0] == 0
    requires forall r | 0 <= r < |c| :: total[r + 1] == total[r] + c[r]
    ensures Sum(c) == total[|c|]
  {
    if c != [] {
      var last := |c| - 1;
      Telescopes(c[..last], total[..|c|]);
      assert total[last + 1] == total[last] + c[last];
    }
  }

  function Ranks(n: nat): set<nat> {
    if n == 0 then {} else Ranks(n - 1) + {n - 1}
  }

  lemma {:induction false} RanksSize(n: nat)
    ensures |Ranks(n)| == n && forall r: nat :: r in Ranks(n) <==> r < n
  {
    if n > 0 {
      RanksSize(n - 1);
    }
  }

  /** A broadcast takes n - 1 sends, from any origin. */
  lemma TotalSends(n: nat, o: nat)
    requires n >= 2 && o < n
    ensures Sum(SendCounts(n, o)) == n - 1
  {
    var c := SendCounts(n, o);
    var total := seq(n + 1, k requires 0 <= k < n + 1 => |Served(n, o, k)|);
    NobodyServed(n, o);
    forall r | 0 <= r < n
      ensures total[r + 1] == total[r] + c[r]
    {
      ServedGrowsBy(n, o, r);
    }
    Telescopes(c, total);
    AllServed(n, o);
  }

  lemma AllServed(n: nat, o: nat)
    requires o < n
    ensures |Served(n, o, n)| == n - 1
  {
    RanksSize(n);
    assert Served(n, o, n) == Ranks(n) - {o};
  }
}
