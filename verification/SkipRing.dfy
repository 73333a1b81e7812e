/** The skip ring of the rootless engine: which ranks a rank sends to when it starts a
    broadcast, and which ones it forwards to when it receives one.  The specification
    functions are followed by the `Bcomm` class that computes them in place, and by the
    theorem that the purely local rules form a spanning tree rooted at any origin. */
module SkipRing {
  import opened Bits

  /** The level of rank 0 is fixed by the world size, that of other ranks by their bits. */
  function RankLevel(n: nat, r: nat): nat
    requires n >= 2
  {
    if r > 0 then TrailingZeros(r)
    else if n == Pow2(FloorLog2(n)) then FloorLog2(n) - 1
    else FloorLog2(n)
  }

  /** The rank a message must come from beyond for `r` to treat it as climbing. */
  function RankWall(n: nat, r: nat): nat
    requires n >= 2
  {
    if r == 0 then Pow2(RankLevel(n, 0)) else Wall(r)
  }

  /** The first channel in [i, top] that runs past the last rank, or `top`. */
  function FirstOverflow(n: nat, r: nat, i: nat, top: nat): (c: nat)
    requires i <= top
    ensures i <= c <= top
    ensures forall j: nat | i <= j < c :: r + Pow2(j) < n
    ensures c < top ==> r + Pow2(c) >= n
    decreases top - i
  {
    if i < top && r + Pow2(i) < n then FirstOverflow(n, r, i + 1, top) else i
  }

  /** `send_channel_cnt` */
  function Channels(n: nat, r: nat): nat
    requires n >= 2
  {
    FirstOverflow(n, r, 0, RankLevel(n, r))
  }

  /** The destination in slot `i` of `send_list`; whatever runs past the last rank goes to rank 0. */
  function Dest(n: nat, r: nat, i: nat): nat {
    if r + Pow2(i) < n then r + Pow2(i) else 0
  }

  predicate PassedOrigin(r: nat, origin: nat, to: nat) {
    to == origin ||
    if r >= origin then to <= r && to >= origin
    else to <= r || to > origin
  }

  /** The slots in [0, hi) that survive the origin check, furthest first. */
  function Unpassed(n: nat, r: nat, origin: nat, hi: nat): seq<nat> {
    if hi == 0 then []
    else (if PassedOrigin(r, origin, Dest(n, r, hi - 1)) then [] else [hi - 1]) + Unpassed(n, r, origin, hi - 1)
  }

  function CountDown(c: nat): (s: seq<nat>)
    ensures |s| == c && forall k | 0 <= k < c :: s[k] == c - 1 - k
  {
    if c == 0 then [] else [c - 1] + CountDown(c - 1)
  }

  /** The request slots posted when `r` forwards a message received from `source`. */
  function ForwardSlots(n: nat, r: nat, origin: nat, source: nat): seq<nat>
    requires n >= 2
  {
    if RankLevel(n, r) == 0 then []
    else if source > RankWall(n, r) then CountDown(Channels(n, r) + 1)
    else Unpassed(n, r, origin, Channels(n, r))
  }

  function Dests(n: nat, r: nat, slots: seq<nat>): (d: seq<nat>)
    ensures |d| == |slots| && forall k | 0 <= k < |d| :: d[k] == Dest(n, r, slots[k])
  {
    seq(|slots|, k requires 0 <= k < |slots| => Dest(n, r, slots[k]))
  }

  /** The ranks a forwarded message goes to, in sending order. */
  function Forwards(n: nat, r: nat, origin: nat, source: nat): seq<nat>
    requires n >= 2
  {
    Dests(n, r, ForwardSlots(n, r, origin, source))
  }

  /** The ranks a new broadcast goes to, in sending order. */
  function Initial(n: nat, origin: nat): seq<nat>
    requires n >= 2
  {
    Dests(n, origin, CountDown(Channels(n, origin) + 1))
  }

  // ---------------------------------------------------------------- slots

  lemma RankZero(n: nat)
    requires n >= 2
    ensures var l := RankLevel(n, 0); Pow2(l) < n <= 2 * Pow2(l) && l + 1 == CeilLog2(n)
    ensures forall r: nat | 0 < r < n :: TrailingZeros(r) <= RankLevel(n, 0)
    ensures Channels(n, 0) == RankLevel(n, 0)
  {
    var l := RankLevel(n, 0);
    forall r: nat | 0 < r < n
      ensures TrailingZeros(r) <= l
    {
      LowBitIsPow2(r);
      if l < TrailingZeros(r) {
        Pow2Monotone(l, TrailingZeros(r));
      }
    }
    if Channels(n, 0) < l {
      Pow2Monotone(Channels(n, 0), l);
    }
  }

  /** Below the first overflow the destinations are the plain sums. */
  lemma SumSlots(n: nat, r: nat, j: nat)
    requires n >= 2 && j <= RankLevel(n, r)
    ensures j < Channels(n, r) <==> j < RankLevel(n, r) && r + Pow2(j) < n
  {
    if Channels(n, r) < j < RankLevel(n, r) {
      Pow2Monotone(Channels(n, r), j);
    }
  }

  lemma {:induction false} UnpassedIsPrefix(n: nat, r: nat, origin: nat, hi: nat)
    requires forall j: nat | j < hi :: r + Pow2(j) < n
    ensures var u := Unpassed(n, r, origin, hi);
      u == CountDown(|u|) && |u| <= hi
      && forall j: nat | j < hi :: j < |u| <==> !PassedOrigin(r, origin, r + Pow2(j))
  {
    if hi > 0 {
      UnpassedIsPrefix(n, r, origin, hi - 1);
      var u := Unpassed(n, r, origin, hi - 1);
      if !PassedOrigin(r, origin, Dest(n, r, hi - 1)) {
        forall j: nat | j < hi - 1
          ensures !PassedOrigin(r, origin, r + Pow2(j))
        {
          Pow2Monotone(j, hi - 1);
        }
        assert |u| == hi - 1;
      }
    }
  }

  /** Send accounting: whatever the sender and the origin, the request slots posted are
      exactly 0..c-1 where c is the number of sends, so testing the first c slots tests
      exactly the posted sends. */
  lemma SlotsContiguous(n: nat, r: nat, origin: nat, source: nat)
    requires n >= 2
    ensures var s := ForwardSlots(n, r, origin, source);
      |s| <= Channels(n, r) + 1 && s == CountDown(|s|)
  {
    UnpassedIsPrefix(n, r, origin, Channels(n, r));
  }

  // ---------------------------------------------------------------- the climb

  /** `t` is met when climbing from `o` by adding lowest set bits. */
  predicate OnClimb(o: nat, t: nat) {
    t > o && Wall(t) < o
  }

  /** `r` is the origin or on its climb. */
  predicate InChain(o: nat, r: nat) {
    r == o || OnClimb(o, r)
  }

  lemma ChainExtends(o: nat, p: nat)
    requires 0 < o && InChain(Up(o), p)
    ensures OnClimb(o, p)
  {
    if p == Up(o) {
      UpRaises(o);
    } else {
      ClimbExtends(o, p);
    }
  }

  function ClimbParent(o: nat, t: nat): (p: nat)
    requires 0 < o && OnClimb(o, t)
    ensures InChain(o, p) && p < t && Up(p) == t
    decreases t - o
  {
    ClimbStaysInBlock(o, t);
    if Up(o) == t then o
    else
      var p := ClimbParent(Up(o), t);
      ChainExtends(o, p);
      p
  }

  /** The last rank of the climb before it wraps to rank 0. */
  function LastClimb(n: nat, o: nat): (s: nat)
    requires 0 < o < n
    ensures InChain(o, s) && s < n <= Up(s)
    decreases n - o
  {
    if Up(o) >= n then o
    else
      var s := LastClimb(n, Up(o));
      ChainExtends(o, s);
      s
  }

  lemma ClimbUnique(o: nat, p: nat, r: nat)
    requires 0 < o && InChain(o, p) && InChain(o, r) && r < p
    ensures Up(r) <= p
  {
    ClimbStaysInBlock(r, p);
  }

  // ---------------------------------------------------------------- the tree

  /** The rank that sends a broadcast from `o` to `t`, in closed form. */
  function Parent(n: nat, o: nat, t: nat): (p: nat)
    requires o < n && t < n && t != o
    ensures p < n && p != t
  {
    if t == 0 then LastClimb(n, o)
    else if OnClimb(o, t) then ClimbParent(o, t)
    else Wall(t)
  }

  /** Clockwise distance from the origin. */
  function Distance(n: nat, o: nat, r: nat): nat
    requires o < n && r < n
  {
    if r >= o then r - o else n - o + r
  }

  /** Every send moves strictly clockwise away from the origin. */
  lemma ParentIsCloser(n: nat, o: nat, t: nat)
    requires o < n && t < n && t != o
    ensures Distance(n, o, Parent(n, o, t)) < Distance(n, o, t)
  {
  }

  ghost predicate IsChild(n: nat, o: nat, r: nat, t: nat)
    requires o < n
  {
    t < n && t != o && Parent(n, o, t) == r
  }

  /** `d` lists exactly the children of `r`, each once. */
  ghost predicate ListsChildren(n: nat, o: nat, r: nat, d: seq<nat>)
    requires o < n
  {
    && (forall i, j | 0 <= i < j < |d| :: d[i] != d[j])
    && (forall t: nat :: t in d <==> IsChild(n, o, r, t))
  }

  /** A destination by a plain sum is a child unless the origin lies behind it. */
  lemma SumChild(n: nat, o: nat, r: nat, j: nat)
    requires n >= 2 && o < n && r < n && j <= RankLevel(n, r) && r + Pow2(j) < n
    requires r > 0 ==> j < RankLevel(n, r)
    ensures TrailingZeros(r + Pow2(j)) == j
    ensures IsChild(n, o, r, r + Pow2(j)) <==> !(r < o <= r + Pow2(j))
  {
    AddLowerBit(r, j);
  }

  /** Every child is reached by a plain sum, by the climb, or by the wrap to rank 0. */
  lemma ChildCases(n: nat, o: nat, r: nat, t: nat)
    requires n >= 2 && o < n && r < n && IsChild(n, o, r, t)
    ensures (r > 0 && InChain(o, r) && t == (if Up(r) < n then Up(r) else 0))
         || (exists j: nat :: j <= RankLevel(n, r) && (r > 0 ==> j < RankLevel(n, r)) && t == r + Pow2(j))
  {
    if t > 0 && !OnClimb(o, t) {
      LowBitIsPow2(t);
      RankZero(n);
      if r > 0 {
        WallRaises(t);
      }
      assert t == r + Pow2(TrailingZeros(t));
    }
  }

  /** The climb target of a rank on the chain is its child. */
  lemma ClimbChild(n: nat, o: nat, r: nat)
    requires n >= 2 && 0 < o < n && 0 < r < n && InChain(o, r)
    ensures IsChild(n, o, r, if Up(r) < n then Up(r) else 0)
  {
    UpRaises(r);
    if Up(r) < n {
      var p := ClimbParent(o, Up(r));
      if p < r {
        ClimbUnique(o, r, p);
      } else if r < p {
        ClimbUnique(o, p, r);
      }
    } else {
      var p := LastClimb(n, o);
      if p < r {
        ClimbUnique(o, r, p);
      } else if r < p {
        ClimbUnique(o, p, r);
      }
    }
  }

  /** The last slot of a rank on the chain holds its climb target. */
  lemma ClimbSlot(n: nat, r: nat)
    requires n >= 2 && 0 < r < n
    ensures Dest(n, r, Channels(n, r)) == if Up(r) < n then Up(r) else 0
  {
    LowBitIsPow2(r);
    if Channels(n, r) < RankLevel(n, r) {
      Pow2Monotone(Channels(n, r), RankLevel(n, r));
    }
  }

  lemma DistinctDests(n: nat, r: nat, c: nat)
    requires n >= 2 && c <= Channels(n, r) + 1 && r < n
    ensures forall i, j | 0 <= i < j < c :: Dests(n, r, CountDown(c))[i] != Dests(n, r, CountDown(c))[j]
  {
    var d := Dests(n, r, CountDown(c));
    forall i, j | 0 <= i < j < c
      ensures d[i] != d[j]
    {
      Pow2Monotone(c - 1 - j, c - 1 - i);
      SumSlots(n, r, c - 1 - j);
    }
  }

  /** Every rank sends to the furthest rank first, seen clockwise from itself. */
  lemma FurthestFirst(n: nat, r: nat, origin: nat, source: nat)
    requires n >= 2 && r < n
    ensures FarToNear(n, r, Initial(n, r)) && FarToNear(n, r, Forwards(n, r, origin, source))
  {
    CountDownIsFarToNear(n, r, Channels(n, r) + 1);
    SlotsContiguous(n, r, origin, source);
    CountDownIsFarToNear(n, r, |ForwardSlots(n, r, origin, source)|);
  }

  ghost predicate FarToNear(n: nat, r: nat, d: seq<nat>)
    requires r < n
  {
    && (forall i | 0 <= i < |d| :: d[i] < n)
    && forall i, j | 0 <= i < j < |d| :: Distance(n, r, d[i]) > Distance(n, r, d[j])
  }

  lemma CountDownIsFarToNear(n: nat, r: nat, c: nat)
    requires n >= 2 && c <= Channels(n, r) + 1 && r < n
    ensures FarToNear(n, r, Dests(n, r, CountDown(c)))
  {
    var d := Dests(n, r, CountDown(c));
    forall i, j | 0 <= i < j < c
      ensures Distance(n, r, d[i]) > Distance(n, r, d[j])
    {
      Pow2Monotone(c - 1 - j, c - 1 - i);
      SumSlots(n, r, c - 1 - j);
      LastSlotOfZero(n, r, c - 1 - i);
    }
  }

  /** Rank 0 never sends to itself. */
  lemma LastSlotOfZero(n: nat, r: nat, i: nat)
    requires n >= 2 && r < n && i <= Channels(n, r)
    ensures r == 0 ==> Pow2(i) < n
  {
    RankZero(n);
    if r == 0 && i < RankLevel(n, 0) {
      Pow2Monotone(i, RankLevel(n, 0));
    }
  }

  /** A rank that sends on every slot: the origin, a climbing rank, or rank 0 when the climb
      skipped the highest power of two. */
  ghost predicate SendsEverywhere(n: nat, o: nat, r: nat)
    requires n >= 2
  {
    InChain(o, r) || (r == 0 && o > Pow2(RankLevel(n, 0)))
  }

  lemma SlotIsChild(n: nat, o: nat, r: nat, j: nat)
    requires n >= 2 && o < n && r < n && SendsEverywhere(n, o, r) && j <= Channels(n, r)
    ensures IsChild(n, o, r, Dest(n, r, j))
  {
    if r > 0 && j == Channels(n, r) {
      ClimbSlot(n, r);
      ClimbChild(n, o, r);
    } else {
      RankZero(n);
      SumSlots(n, r, j);
      if j < RankLevel(n, r) && r == 0 {
        Pow2Monotone(j, RankLevel(n, 0));
      }
      SumChild(n, o, r, j);
    }
  }

  lemma ChildHasSlot(n: nat, o: nat, r: nat, t: nat) returns (j: nat)
    requires n >= 2 && o < n && r < n && IsChild(n, o, r, t)
    ensures j <= Channels(n, r) && Dest(n, r, j) == t
    ensures !OnClimb(o, r) && r != o && (r == 0 ==> o <= Pow2(RankLevel(n, 0))) ==>
      j < Channels(n, r) && t == r + Pow2(j) && !(r < o <= t)
  {
    ChildCases(n, o, r, t);
    if r > 0 && InChain(o, r) && t == (if Up(r) < n then Up(r) else 0) {
      ClimbSlot(n, r);
      j := Channels(n, r);
    } else {
      j :| j <= RankLevel(n, r) && (r > 0 ==> j < RankLevel(n, r)) && t == r + Pow2(j);
      RankZero(n);
      SumSlots(n, r, j);
      SumChild(n, o, r, j);
    }
  }

  /** Slots 0..c-1 list the children when each holds a child and each child has one. */
  lemma SlotsListChildren(n: nat, o: nat, r: nat, c: nat)
    requires n >= 2 && o < n && r < n && c <= Channels(n, r) + 1
    requires forall j: nat | j < c :: IsChild(n, o, r, Dest(n, r, j))
    requires forall t: nat | IsChild(n, o, r, t) :: exists j: nat :: j < c && Dest(n, r, j) == t
    ensures ListsChildren(n, o, r, Dests(n, r, CountDown(c)))
  {
    var d := Dests(n, r, CountDown(c));
    DistinctDests(n, r, c);
    forall t: nat | IsChild(n, o, r, t)
      ensures t in d
    {
      var j: nat :| j < c && Dest(n, r, j) == t;
      assert d[c - 1 - j] == t;
    }
  }

  /** Sending on every slot reaches exactly the children of such a rank. */
  lemma AllSlotsAreChildren(n: nat, o: nat, r: nat)
    requires n >= 2 && o < n && r < n && SendsEverywhere(n, o, r)
    ensures ListsChildren(n, o, r, Dests(n, r, CountDown(Channels(n, r) + 1)))
  {
    var c := Channels(n, r) + 1;
    forall j: nat | j < c
      ensures IsChild(n, o, r, Dest(n, r, j))
    {
      SlotIsChild(n, o, r, j);
    }
    forall t: nat | IsChild(n, o, r, t)
      ensures exists j: nat :: j < c && Dest(n, r, j) == t
    {
      var j := ChildHasSlot(n, o, r, t);
    }
    SlotsListChildren(n, o, r, c);
  }

  /** Where the message of `o` comes from tells a climbing rank from a descending one. */
  lemma SourceBranch(n: nat, o: nat, r: nat)
    requires n >= 2 && o < n && r < n && r != o
    ensures Parent(n, o, r) > RankWall(n, r) <==>
      if r == 0 then o > Pow2(RankLevel(n, 0)) else OnClimb(o, r)
  {
    if r == 0 {
      RankZero(n);
      var l := RankLevel(n, 0);
      var s := LastClimb(n, o);
      if o <= Pow2(l) {
        AddLowerBit(0, l);
        assert InChain(o, Pow2(l));
        if s < Pow2(l) {
          ClimbUnique(o, Pow2(l), s);
        } else if Pow2(l) < s {
          ClimbUnique(o, s, Pow2(l));
        }
      }
    }
  }

  /** Sending on the slots that survive the origin check reaches exactly the children of a
      descending rank. */
  lemma UnpassedAreChildren(n: nat, o: nat, r: nat)
    requires n >= 2 && o < n && r < n && !SendsEverywhere(n, o, r)
    ensures ListsChildren(n, o, r, Dests(n, r, Unpassed(n, r, o, Channels(n, r))))
  {
    var u := Unpassed(n, r, o, Channels(n, r));
    UnpassedIsPrefix(n, r, o, Channels(n, r));
    forall j: nat | j < |u|
      ensures IsChild(n, o, r, Dest(n, r, j))
    {
      SumChild(n, o, r, j);
    }
    forall t: nat | IsChild(n, o, r, t)
      ensures exists j: nat :: j < |u| && Dest(n, r, j) == t
    {
      var j := ChildHasSlot(n, o, r, t);
    }
    SlotsListChildren(n, o, r, |u|);
  }

  /** A rank of level 0 that is not the origin has no children. */
  lemma LeafHasNoChildren(n: nat, o: nat, r: nat)
    requires n >= 2 && o < n && r < n && r != o && RankLevel(n, r) == 0
    ensures ListsChildren(n, o, r, [])
  {
    RankZero(n);
    forall t: nat
      ensures !IsChild(n, o, r, t)
    {
      if IsChild(n, o, r, t) {
        ChildCases(n, o, r, t);
        if r > 0 {
          var p := Parent(n, o, r);
          assert OnClimb(o, r);
          UpRaises(ClimbParent(o, r));
        }
      }
    }
  }

  /** The origin sends to exactly its children. */
  lemma InitialSends(n: nat, o: nat)
    requires n >= 2 && o < n
    ensures ListsChildren(n, o, o, Initial(n, o))
  {
    AllSlotsAreChildren(n, o, o);
  }

  /** A rank that receives the message from its parent forwards it to exactly its children. */
  lemma ForwardSends(n: nat, o: nat, r: nat)
    requires n >= 2 && o < n && r < n && r != o
    ensures ListsChildren(n, o, r, Forwards(n, r, o, Parent(n, o, r)))
  {
    SourceBranch(n, o, r);
    if RankLevel(n, r) == 0 {
      LeafHasNoChildren(n, o, r);
      assert Forwards(n, r, o, Parent(n, o, r)) == [];
    } else if Parent(n, o, r) > RankWall(n, r) {
      AllSlotsAreChildren(n, o, r);
    } else {
      UnpassedAreChildren(n, o, r);
    }
  }

  // ---------------------------------------------------------------- latency

  /** The number of hops from the origin to `t`. */
  function Hops(n: nat, o: nat, t: nat): nat
    requires o < n && t < n
    decreases Distance(n, o, t)
  {
    if t == o then 0
    else
      ParentIsCloser(n, o, t);
      1 + Hops(n, o, Parent(n, o, t))
  }

  /** Hops are bounded by the level on the climb, and by what the descent can still lower off it. */
  lemma {:induction false} HopsByLevel(n: nat, o: nat, t: nat)
    requires n >= 2 && o < n && t < n
    ensures t > 0 && InChain(o, t) ==> Hops(n, o, t) <= TrailingZeros(t)
    ensures t > 0 && !InChain(o, t) ==> Hops(n, o, t) + TrailingZeros(t) <= 2 * CeilLog2(n)
    ensures t == 0 ==> Hops(n, o, t) <= CeilLog2(n)
    decreases Distance(n, o, t)
  {
    if t != o {
      ParentIsCloser(n, o, t);
      var p := Parent(n, o, t);
      HopsByLevel(n, o, p);
      RankZero(n);
      if t > 0 {
        if InChain(o, t) {
          UpRaises(p);
        } else if p > 0 {
          WallRaises(t);
        }
      }
    }
  }

  /** Every rank is reached in at most 2 * ceil(log2 n) hops from any origin: whenever the world
      fits into 2^k ranks, 2 * k hops are enough. */
  lemma LatencyBound(n: nat, o: nat, t: nat, k: nat)
    requires n >= 2 && o < n && t < n && n <= Pow2(k)
    ensures Hops(n, o, t) <= 2 * CeilLog2(n) <= 2 * k
  {
    HopsByLevel(n, o, t);
    RankZero(n);
    CeilLog2Least(n);
  }

  // ---------------------------------------------------------------- in place

  /** `is_powerof2`: halve while even. */
  method IsPowerOf2(n: nat) returns (b: bool)
    requires n > 0
    ensures b <==> IsPow2(n)
  {
    var m := n;
    while m != 1 && m % 2 == 0
      invariant m > 0
      invariant IsPow2(n) <==> IsPow2(m)
    {
      HalvePow2(m);
      m := m / 2;
    }
    if m == 1 {
      assert m == Pow2(0);
      b := true;
    } else {
      b := false;
    }
  }

  lemma HalvePow2(m: nat)
    requires m > 1
    ensures IsPow2(m) ==> m % 2 == 0
    ensures m % 2 == 0 ==> (IsPow2(m) <==> IsPow2(m / 2))
  {
    if IsPow2(m) {
      var k: nat :| m == Pow2(k);
      assert m / 2 == Pow2(k - 1);
    }
    if m % 2 == 0 && IsPow2(m / 2) {
      var k: nat :| m / 2 == Pow2(k);
      assert m == Pow2(k + 1);
    }
  }

  /** `get_level`: the trailing zeros of the rank, or the fixed level of rank 0. */
  method GetLevel(n: nat, rank: nat) returns (l: nat)
    requires n >= 2
    ensures l == RankLevel(n, rank)
  {
    if rank == 0 {
      var p := IsPowerOf2(n);
      IsPow2Iff(n);
      return if p then FloorLog2(n) - 1 else FloorLog2(n);
    }
    var r := rank;
    l := 0;
    while r != 0 && r % 2 == 0
      invariant r > 0 && l + TrailingZeros(r) == TrailingZeros(rank)
    {
      r := r / 2;
      l := l + 1;
    }
  }

  /** `last_wall`: probe the bits below 2^30 from the lowest up and clear the first one set.
      For every non-negative 32-bit rank this clears the lowest set bit. */
  method LastWall(rank: nat) returns (w: nat)
    requires rank < 0x8000_0000
    ensures w == if rank == 0 then 0 else Wall(rank)
  {
    var u, i := 1, 0;
    while u < 0x4000_0000
      invariant u == Pow2(i) && i <= 30 && NoBitBelow(rank, i)
    {
      Pow2Of30(i);
      LowestSetBit(rank, i);
      if BitAt(rank, i) {
        return rank - u;
      }
      u, i := 2 * u, i + 1;
    }
    Pow2Of30(i);
    LoneBit(rank, i);
    w := 0;
  }

  lemma Pow2Of30(i: nat)
    ensures Pow2(i) < 0x4000_0000 <==> i < 30
    ensures Pow2(i) == 0x4000_0000 <==> i == 30
  {
    assert Pow2(10) == 1024;
    assert Pow2(20) == 1024 * 1024;
    assert Pow2(30) == 1024 * 1024 * 1024;
    if i < 30 {
      Pow2Monotone(i, 30);
    } else if i > 30 {
      Pow2Monotone(30, i);
    }
  }

  /** A posted send: the request slot it occupies and its destination. */
  datatype Send = Send(slot: nat, to: nat)

  function Posted(n: nat, r: nat, slots: seq<nat>): (s: seq<Send>)
    ensures |s| == |slots| && forall k | 0 <= k < |s| :: s[k] == Send(slots[k], Dest(n, r, slots[k]))
  {
    seq(|slots|, k requires 0 <= k < |slots| => Send(slots[k], Dest(n, r, slots[k])))
  }

  /** The communicator state of one rank. */
  class Bcomm {
    const myRank: nat
    const worldSize: nat
    var myLevel: nat
    var lastWall: nat
    var worldIsPowerOf2: bool
    var sendChannelCnt: nat
    var sendListLen: nat
    var sendList: array<nat>

    /** The fields describe the skip ring of this rank. */
    ghost predicate Valid()
      reads this, sendList
    {
      && worldSize >= 2 && myRank < worldSize
      && myLevel == RankLevel(worldSize, myRank)
      && lastWall == RankWall(worldSize, myRank)
      && (worldIsPowerOf2 <==> IsPow2(worldSize))
      && sendChannelCnt == Channels(worldSize, myRank)
      && sendListLen == sendChannelCnt + 1 <= sendList.Length
      && forall j: nat | j < sendListLen :: sendList[j] == Dest(worldSize, myRank, j)
    }

    /** `bcomm_init` */
    constructor (worldSize: nat, myRank: nat)
      requires 2 <= worldSize < 0x8000_0000 && myRank < worldSize
      ensures Valid() && this.worldSize == worldSize && this.myRank == myRank
      ensures fresh(sendList)
    {
      this.worldSize, this.myRank := worldSize, myRank;
      new;
      myLevel := GetLevel(worldSize, myRank);
      if myRank == 0 {
        lastWall := Pow2(myLevel);
      } else {
        lastWall := LastWall(myRank);
      }
      worldIsPowerOf2 := IsPowerOf2(worldSize);
      FillSendList();
    }

    /** The destination loops of `bcomm_init`. */
    method FillSendList()
      requires worldSize >= 2 && myRank < worldSize && myLevel == RankLevel(worldSize, myRank)
      requires worldIsPowerOf2 <==> IsPow2(worldSize)
      modifies this`sendChannelCnt, this`sendListLen, this`sendList
      ensures fresh(sendList)
      ensures sendChannelCnt == Channels(worldSize, myRank)
      ensures sendListLen == sendChannelCnt + 1 <= sendList.Length
      ensures forall j: nat | j < sendListLen :: sendList[j] == Dest(worldSize, myRank, j)
    {
      sendChannelCnt := myLevel;
      sendListLen := sendChannelCnt + 1;
      sendList := new nat[sendListLen];
      if worldIsPowerOf2 {
        FillPowerOf2();
      } else {
        FillOther();
      }
    }

    method FillPowerOf2()
      requires worldSize >= 2 && myRank < worldSize && myLevel == RankLevel(worldSize, myRank)
      requires IsPow2(worldSize) && sendChannelCnt == myLevel
      requires sendListLen == sendList.Length == myLevel + 1
      modifies sendList
      ensures sendChannelCnt == Channels(worldSize, myRank)
      ensures forall j: nat | j < sendListLen :: sendList[j] == Dest(worldSize, myRank, j)
    {
      PowerOf2Channels(worldSize, myRank);
      for i := 0 to sendListLen
        invariant forall j: nat | j < i :: sendList[j] == Dest(worldSize, myRank, j)
      {
        PowerOf2Slot(worldSize, myRank, i);
        sendList[i] := (myRank + Pow2(i)) % worldSize;
      }
    }

    method FillOther()
      requires worldSize >= 2 && myRank < worldSize && myLevel == RankLevel(worldSize, myRank)
      requires !IsPow2(worldSize) && sendChannelCnt == myLevel
      requires sendListLen == sendList.Length == myLevel + 1
      modifies this`sendChannelCnt, this`sendListLen, sendList
      ensures sendChannelCnt == Channels(worldSize, myRank)
      ensures sendListLen == sendChannelCnt + 1 <= sendList.Length
      ensures forall j: nat | j < sendListLen :: sendList[j] == Dest(worldSize, myRank, j)
    {
      var i := 0;
      while i < sendListLen
        invariant sendListLen == sendList.Length == myLevel + 1 && sendChannelCnt == myLevel
        invariant i <= Channels(worldSize, myRank) || i == myLevel + 1 == Channels(worldSize, myRank) + 1
        invariant forall j: nat | j < i :: sendList[j] == Dest(worldSize, myRank, j)
      {
        var dest := myRank + Pow2(i);
        SumSlots(worldSize, myRank, i);
        if dest >= worldSize {
          CutAt(i);
          return;
        }
        sendList[i] := dest;
        i := i + 1;
      }
    }

    /** The overflow branch: slot `i` wraps to rank 0 and ends the list. */
    method CutAt(i: nat)
      requires worldSize >= 2 && myRank < worldSize && i < sendList.Length
      requires i == Channels(worldSize, myRank) && myRank + Pow2(i) >= worldSize
      requires forall j: nat | j < i :: sendList[j] == Dest(worldSize, myRank, j)
      modifies this`sendChannelCnt, this`sendListLen, sendList
      ensures sendChannelCnt == Channels(worldSize, myRank)
      ensures sendListLen == sendChannelCnt + 1 <= sendList.Length
      ensures forall j: nat | j < sendListLen :: sendList[j] == Dest(worldSize, myRank, j)
    {
      if myRank == worldSize - 1 {
        sendChannelCnt := 0;
        sendList[0] := 0;
      } else {
        sendChannelCnt := i;
        sendList[i] := 0;
      }
      sendListLen := sendChannelCnt + 1;
    }

    /** `fwd_send_cnt` counts the sends a forward would make. */
    method FwdSendCnt(origin: nat, source: nat) returns (cnt: nat)
      requires Valid()
      ensures cnt == |ForwardSlots(worldSize, myRank, origin, source)|
    {
      cnt := 0;
      if myLevel > 0 {
        if source > lastWall {
          for j := sendChannelCnt + 1 downto 0
            invariant cnt + j == sendChannelCnt + 1
          {
            cnt := cnt + 1;
          }
        } else {
          for i := sendChannelCnt downto 0
            invariant cnt + |Unpassed(worldSize, myRank, origin, i)| ==
              |Unpassed(worldSize, myRank, origin, sendChannelCnt)|
          {
            if !PassedOrigin(myRank, origin, sendList[i]) {
              cnt := cnt + 1;
            }
          }
        }
      }
    }

    /** The sending half of `_bc_forward`: the sends posted, furthest rank first. */
    method Forward(origin: nat, source: nat) returns (posted: seq<Send>)
      requires Valid()
      ensures posted == Posted(worldSize, myRank, ForwardSlots(worldSize, myRank, origin, source))
    {
      posted := [];
      if myLevel > 0 {
        if source > lastWall {
          posted := PostAll();
        } else {
          posted := PostUnpassed(origin);
        }
      }
    }

    method PostAll() returns (posted: seq<Send>)
      requires Valid()
      ensures posted == Posted(worldSize, myRank, CountDown(sendChannelCnt + 1))
    {
      posted := [];
      for j := sendChannelCnt + 1 downto 0
        invariant |posted| + j == sendChannelCnt + 1
        invariant forall k | 0 <= k < |posted| ::
          posted[k] == Send(sendChannelCnt - k, Dest(worldSize, myRank, sendChannelCnt - k))
      {
        posted := posted + [Send(j, sendList[j])];
      }
    }

    method PostUnpassed(origin: nat) returns (posted: seq<Send>)
      requires Valid()
      ensures posted == Posted(worldSize, myRank, Unpassed(worldSize, myRank, origin, sendChannelCnt))
    {
      posted := [];
      ghost var all := Unpassed(worldSize, myRank, origin, sendChannelCnt);
      for j := sendChannelCnt downto 0
        invariant |posted| <= |all| && all[|posted|..] == Unpassed(worldSize, myRank, origin, j)
        invariant forall k | 0 <= k < |posted| :: posted[k] == Send(all[k], Dest(worldSize, myRank, all[k]))
      {
        if !PassedOrigin(myRank, origin, sendList[j]) {
          assert all[|posted|] == j;
          posted := posted + [Send(j, sendList[j])];
        }
      }
    }
  }

  lemma PowerOf2Fits(n: nat, r: nat, i: nat)
    requires n >= 2 && r < n && IsPow2(n) && i <= RankLevel(n, r)
    ensures r + Pow2(i) <= n
    ensures i < RankLevel(n, r) ==> r + Pow2(i) < n
  {
    IsPow2Iff(n);
    var l := RankLevel(n, r);
    if r > 0 {
      LowBitIsPow2(r);
      Pow2BoundsUp(r, FloorLog2(n));
    }
    if i < l {
      Pow2Monotone(i, l);
    }
  }

  lemma PowerOf2Channels(n: nat, r: nat)
    requires n >= 2 && r < n && IsPow2(n)
    ensures Channels(n, r) == RankLevel(n, r)
  {
    PowerOf2Fits(n, r, Channels(n, r));
  }

  /** In a power-of-two world the remainder only ever wraps to rank 0. */
  lemma PowerOf2Slot(n: nat, r: nat, i: nat)
    requires n >= 2 && r < n && IsPow2(n) && i <= RankLevel(n, r)
    ensures (r + Pow2(i)) % n == Dest(n, r, i)
  {
    PowerOf2Fits(n, r, i);
    WrapOnce(r + Pow2(i), n);
  }

  lemma WrapOnce(x: nat, n: nat)
    requires 0 < n && x <= n
    ensures x % n == if x < n then x else 0
  {
  }

  /** The climb never jumps over a power of two. */
  lemma {:induction false} Pow2BoundsUp(r: nat, k: nat)
    requires 0 < r < Pow2(k)
    ensures Up(r) <= Pow2(k)
    decreases k
  {
    if r % 2 == 0 {
      Pow2BoundsUp(r / 2, k - 1);
      assert Up(r) / 2 == Up(r / 2);
    }
  }
}
