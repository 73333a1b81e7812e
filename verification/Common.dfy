/** Small notions that several modules share. */
module Common {

  datatype Option<T> = None | Some(value: T)

  function Repeat<T>(x: T, n: nat): (s: seq<T>)
    ensures |s| == n && forall i | 0 <= i < n :: s[i] == x
  {
    seq(n, i => x)
  }

  function Sum(c: seq<nat>): nat {
    if c == [] then 0 else Sum(c[..|c| - 1]) + c[|c| - 1]
  }

  lemma {:induction false} SumUpdate(c: seq<nat>, r: nat, v: nat)
    requires r < |c|
    ensures Sum(c[r := v]) == Sum(c) - c[r] + v
  {
    var last := |c| - 1;
    if r == last {
      assert c[r := v][..last] == c[..last];
    } else {
      assert c[r := v][..last] == c[..last][r := v];
      SumUpdate(c[..last], r, v);
    }
  }

  /** One entry grows by one, or none does. */
  lemma SumMore(before: seq<nat>, after: seq<nat>, r: nat, grows: bool)
    requires |after| == |before| && r < |before|
    requires forall i | 0 <= i < |before| :: after[i] == before[i] + if grows && i == r then 1 else 0
    ensures Sum(after) == Sum(before) + if grows then 1 else 0
  {
    if grows {
      assert after == before[r := before[r] + 1];
      SumUpdate(before, r, before[r] + 1);
    } else {
      assert after == before;
    }
  }

  lemma {:induction false} SumZeros(n: nat)
    ensures Sum(Repeat<nat>(0, n)) == 0
  {
    if n > 0 {
      assert Repeat<nat>(0, n)[..n - 1] == Repeat<nat>(0, n - 1);
      SumZeros(n - 1);
    }
  }

  lemma {:induction false} SumScaled(a: seq<nat>, b: seq<nat>, f: nat)
    requires |a| == |b| && forall i | 0 <= i < |a| :: a[i] <= f * b[i]
    ensures Sum(a) <= f * Sum(b)
  {
    if a != [] {
      var last := |a| - 1;
      SumScaled(a[..last], b[..last], f);
      assert f * (Sum(b[..last]) + b[last]) == f * Sum(b[..last]) + f * b[last];
    }
  }

  function Elements(s: seq<nat>): set<nat> {
    set t | t in s
  }

  /** A list without repetition is as long as its set of elements. */
  lemma {:induction false} ElementCount(s: seq<nat>)
    requires forall i, j | 0 <= i < j < |s| :: s[i] != s[j]
    ensures |Elements(s)| == |s|
  {
    if s != [] {
      var front, last := s[..|s| - 1], s[|s| - 1];
      ElementCount(front);
      assert s == front + [last];
      assert Elements(s) == Elements(front) + {last};
    }
  }

  lemma {:induction false} CountOnce<T>(s: seq<T>, x: T)
    requires forall i, j | 0 <= i < j < |s| :: s[i] != s[j]
    ensures multiset(s)[x] == if x in s then 1 else 0
  {
    if s != [] {
      var front, last := s[..|s| - 1], s[|s| - 1];
      assert s == front + [last];
      assert last !in front;
      CountOnce(front, x);
    }
  }
}
