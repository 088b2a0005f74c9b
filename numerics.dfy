/** The numeric vocabulary of the voting engine: floating-point values that may be
    NaN, sums, the numpy statistics the scoring rules use (median, mean, linear
    quantile) and the descending ranking behind `sorted(..., reverse=True)`,
    `max(..., key=...)` and `np.argsort(-x)`.  Amounts are exact reals. */
module Numerics {
  import opened Base

  /** A float as numpy produces it: a real number or NaN. */
  datatype Num = Num(r: real) | NaN

  /** Python's `sum`, adding from the left. */
  function Sum(s: seq<real>): real {
    if s == [] then 0.0 else Sum(s[..|s| - 1]) + s[|s| - 1]
  }

  lemma {:induction false} SumAppend(a: seq<real>, b: seq<real>)
    ensures Sum(a + b) == Sum(a) + Sum(b)
    decreases |b|
  {
    if b == [] {
      assert a + b == a;
    } else {
      assert (a + b)[..|a + b| - 1] == a + b[..|b| - 1];
      SumAppend(a, b[..|b| - 1]);
    }
  }

  /** Sum of a sequence with every element scaled by c. */
  lemma {:induction false} SumScaled(s: seq<real>, t: seq<real>, c: real)
    requires |t| == |s|
    requires forall i :: 0 <= i < |s| ==> t[i] == s[i] * c
    ensures Sum(t) == Sum(s) * c
    decreases |s|
  {
    if s != [] {
      SumScaled(s[..|s| - 1], t[..|t| - 1], c);
    }
  }

  /** Every element lies in [lo, hi]. */
  predicate InRange(s: seq<real>, lo: real, hi: real) {
    forall i :: 0 <= i < |s| ==> lo <= s[i] <= hi
  }

  lemma {:induction false} SumBounds(s: seq<real>, lo: real, hi: real)
    requires InRange(s, lo, hi)
    ensures |s| as real * lo <= Sum(s) <= |s| as real * hi
    decreases |s|
  {
    if s != [] {
      var m := |s| - 1;
      assert InRange(s[..m], lo, hi) by {
        forall i | 0 <= i < m ensures lo <= s[..m][i] <= hi {
          assert s[..m][i] == s[i];
        }
      }
      SumBounds(s[..m], lo, hi);
      assert Sum(s) == Sum(s[..m]) + s[m];
      assert |s| as real * lo == m as real * lo + lo;
      assert |s| as real * hi == m as real * hi + hi;
    }
  }

  /** The smallest element. */
  function SeqMin(s: seq<real>): (m: real)
    requires s != []
    ensures m in s && forall i :: 0 <= i < |s| ==> m <= s[i]
  {
    if |s| == 1 then s[0]
    else var m := SeqMin(s[..|s| - 1]); if m <= s[|s| - 1] then m else s[|s| - 1]
  }

  /** The largest element. */
  function SeqMax(s: seq<real>): (m: real)
    requires s != []
    ensures m in s && forall i :: 0 <= i < |s| ==> s[i] <= m
  {
    if |s| == 1 then s[0]
    else var m := SeqMax(s[..|s| - 1]); if s[|s| - 1] <= m then m else s[|s| - 1]
  }

  // ---------------------------------------------------------------- sorting

  predicate SortedAsc(s: seq<real>) {
    forall i, j :: 0 <= i < j < |s| ==> s[i] <= s[j]
  }

  /** Insert x into an ascending sequence. */
  function InsertAsc(x: real, s: seq<real>): (r: seq<real>)
    ensures |r| == |s| + 1 && multiset(r) == multiset(s) + multiset{x}
    ensures SortedAsc(s) ==> SortedAsc(r)
  {
    if s == [] || s[|s| - 1] <= x then s + [x]
    else
      var init, last := s[..|s| - 1], s[|s| - 1];
      var rest := InsertAsc(x, init);
      assert s == init + [last];
      InsertedBeforeLast(s, x, rest);
      rest + [last]
  }

  /** Putting the last element of a sorted s after the sorted insertion of x (no
      larger than that element) into the rest of s keeps the order. */
  lemma InsertedBeforeLast(s: seq<real>, x: real, rest: seq<real>)
    requires s != [] && x <= s[|s| - 1]
    requires multiset(rest) == multiset(s[..|s| - 1]) + multiset{x}
    requires SortedAsc(s[..|s| - 1]) ==> SortedAsc(rest)
    ensures SortedAsc(s) ==> SortedAsc(rest + [s[|s| - 1]])
  {
    if SortedAsc(s) {
      var init, last := s[..|s| - 1], s[|s| - 1];
      assert SortedAsc(init);
      UpperBoundKept(last, x, init, rest);
      var r := rest + [last];
      forall i, j | 0 <= i < j < |r| ensures r[i] <= r[j] {
        assert r[i] == rest[i];
        if j < |rest| {
          assert r[j] == rest[j];
        }
      }
    }
  }

  /** An upper bound of x and of every element of s bounds every element of a
      sequence holding the same elements as s and x. */
  lemma UpperBoundKept(hi: real, x: real, s: seq<real>, r: seq<real>)
    requires multiset(r) == multiset(s) + multiset{x}
    requires x <= hi && forall k :: 0 <= k < |s| ==> s[k] <= hi
    ensures forall k :: 0 <= k < |r| ==> r[k] <= hi
  {
    forall k | 0 <= k < |r| ensures r[k] <= hi {
      assert r[k] in multiset(r);
      if r[k] != x {
        assert r[k] in multiset(s);
      }
    }
  }

  /** The ascending sort numpy applies before taking a median or a quantile. */
  function SortAsc(s: seq<real>): (r: seq<real>)
    ensures multiset(r) == multiset(s) && |r| == |s|
    ensures SortedAsc(r)
  {
    if s == [] then []
    else
      assert s == s[..|s| - 1] + [s[|s| - 1]];
      InsertAsc(s[|s| - 1], SortAsc(s[..|s| - 1]))
  }

  lemma SortedElementInRange(s: seq<real>, k: nat)
    requires s != [] && k < |s|
    ensures SeqMin(s) <= SortAsc(s)[k] <= SeqMax(s)
  {
    var t := SortAsc(s);
    assert t[k] in multiset(t);
    assert t[k] in s;
  }

  // ------------------------------------------------------------- statistics

  /** np.median: the middle element of the sorted list, or the average of the
      two middle elements; NaN for an empty list. */
  function Median(s: seq<real>): Num {
    if s == [] then NaN
    else
      var t := SortAsc(s);
      var n := |t|;
      if n % 2 == 1 then Num(t[n / 2]) else Num((t[n / 2 - 1] + t[n / 2]) / 2.0)
  }

  /** np.mean: the arithmetic mean; NaN for an empty list. */
  function Mean(s: seq<real>): Num {
    if s == [] then NaN else Num(Sum(s) / |s| as real)
  }

  /** A median of a non-empty list lies between its smallest and its largest element. */
  lemma MedianWithinRange(s: seq<real>)
    requires s != []
    ensures Median(s).Num?
    ensures SeqMin(s) <= Median(s).r <= SeqMax(s)
  {
    var t := SortAsc(s);
    var n := |t|;
    var k := n / 2;
    assert 0 <= k < n;
    SortedElementInRange(s, k);
    if n % 2 == 0 {
      assert 0 < k;
      SortedElementInRange(s, k - 1);
      MidpointBetween(t[k - 1], t[k], SeqMin(s), SeqMax(s));
    }
  }

  lemma MidpointBetween(a: real, b: real, lo: real, hi: real)
    requires lo <= a <= hi && lo <= b <= hi
    ensures lo <= (a + b) / 2.0 <= hi
  {
  }

  /** The mean of a list whose elements lie in [lo, hi] lies in [lo, hi]. */
  lemma MeanInRange(s: seq<real>, lo: real, hi: real)
    requires s != [] && InRange(s, lo, hi)
    ensures Mean(s).Num? && lo <= Mean(s).r <= hi
  {
    var n := |s| as real;
    SumBounds(s, lo, hi);
    assert Sum(s) / n - lo == (Sum(s) - n * lo) / n;
    assert hi - Sum(s) / n == (n * hi - Sum(s)) / n;
  }

  /** A mean of a non-empty list lies between its smallest and its largest element. */
  lemma MeanWithinRange(s: seq<real>)
    requires s != []
    ensures Mean(s).Num?
    ensures SeqMin(s) <= Mean(s).r <= SeqMax(s)
  {
    MeanInRange(s, SeqMin(s), SeqMax(s));
  }

  /** np.quantile(s, q) with numpy's default linear interpolation, on a list that is
      already sorted: the virtual index (n-1)q is split into its floor and fraction. */
  function QuantileSorted(t: seq<real>, q: real): real
    requires t != [] && 0.0 <= q <= 1.0
  {
    var h := (|t| - 1) as real * q;
    VirtualIndexInRange(|t| - 1, q);
    var i := h.Floor;
    if i + 1 < |t| then t[i] + (h - i as real) * (t[i + 1] - t[i]) else t[i]
  }

  /** The linear quantile of a sorted list lies between its first and last elements. */
  lemma QuantileSortedBetween(t: seq<real>, q: real)
    requires t != [] && 0.0 <= q <= 1.0 && SortedAsc(t)
    ensures t[0] <= QuantileSorted(t, q) <= t[|t| - 1]
  {
    var m := |t| - 1;
    var h := m as real * q;
    VirtualIndexInRange(m, q);
    var i := h.Floor;
    var frac := h - i as real;
    if i + 1 < |t| {
      var a, b := t[i], t[i + 1];
      assert QuantileSorted(t, q) == a + frac * (b - a);
      assert t[0] <= a <= b <= t[m];
      LerpBetween(a, b, frac);
    } else {
      assert QuantileSorted(t, q) == t[i];
      assert t[0] <= t[i] <= t[m];
    }
  }

  /** The virtual index (n-1)q of a quantile q in [0, 1] has its floor among the
      indices. */
  lemma VirtualIndexInRange(m: nat, q: real)
    requires 0.0 <= q <= 1.0
    ensures 0 <= (m as real * q).Floor <= m
  {
    NonNegativeProduct(m as real, q);
    NonNegativeProduct(m as real, 1.0 - q);
    assert m as real - m as real * q == m as real * (1.0 - q);
  }

  /** Linear interpolation by a fraction in [0, 1) stays between its end points. */
  lemma LerpBetween(a: real, b: real, frac: real)
    requires a <= b && 0.0 <= frac < 1.0
    ensures a <= a + frac * (b - a) <= b
  {
    NonNegativeProduct(frac, b - a);
    NonNegativeProduct(1.0 - frac, b - a);
    assert (b - a) - frac * (b - a) == (1.0 - frac) * (b - a);
  }

  lemma NonNegativeProduct(a: real, b: real)
    requires 0.0 <= a && 0.0 <= b
    ensures 0.0 <= a * b
  {
  }

  lemma PositiveProduct(a: real, b: real)
    requires 0.0 < a && 0.0 < b
    ensures 0.0 < a * b
  {
  }

  /** np.quantile(s, q): quantile of the sorted list. */
  function Quantile(s: seq<real>, q: real): real
    requires s != [] && 0.0 <= q <= 1.0
  {
    QuantileSorted(SortAsc(s), q)
  }

  /** A quantile of a non-empty list lies between its smallest and its largest element. */
  lemma QuantileWithinRange(s: seq<real>, q: real)
    requires s != [] && 0.0 <= q <= 1.0
    ensures SeqMin(s) <= Quantile(s, q) <= SeqMax(s)
  {
    var t := SortAsc(s);
    QuantileSortedBetween(t, q);
    SortedElementInRange(s, 0);
    SortedElementInRange(s, |s| - 1);
  }

  /** f is the square root on the non-negative reals (np.sqrt, which the model
      receives as a parameter). */
  ghost predicate IsSqrt(f: real -> real) {
    forall x: real :: 0.0 <= x ==> 0.0 <= f(x) && f(x) * f(x) == x
  }

  /** The square root of a number of at least 1 is at least 1. */
  lemma SqrtAtLeastOne(f: real -> real, x: real)
    requires IsSqrt(f) && 1.0 <= x
    ensures 1.0 <= f(x)
  {
    var s := f(x);
    assert 0.0 <= s && s * s == x;
    SquareBelowOne(s);
  }

  lemma SquareBelowOne(s: real)
    requires 0.0 <= s
    ensures s < 1.0 ==> s * s < 1.0
  {
    if s < 1.0 {
      NonNegativeProduct(s, 1.0 - s);
      assert s * (1.0 - s) == s - s * s;
      assert s * s <= s;
    }
  }

  // ---------------------------------------------------------------- ranking

  /** Index a comes before index b when its key is larger, ties broken by the
      smaller index: a strict total order on indices. */
  predicate Before(keys: seq<real>, a: nat, b: nat)
    requires a < |keys| && b < |keys|
  {
    keys[a] > keys[b] || (keys[a] == keys[b] && a < b)
  }

  /** Every index of the ranking comes before every later one. */
  predicate RankedBy(keys: seq<real>, order: seq<nat>) {
    (forall i :: 0 <= i < |order| ==> order[i] < |keys|) &&
    forall i, j :: 0 <= i < j < |order| ==> Before(keys, order[i], order[j])
  }

  /** Insert index x into a ranking at the place its key gives it. */
  function InsertRanked(keys: seq<real>, x: nat, order: seq<nat>): (r: seq<nat>)
    requires x < |keys| && x !in order && RankedBy(keys, order)
    ensures |r| == |order| + 1
    ensures forall y :: y in r <==> y == x || y in order
    ensures RankedBy(keys, r)
  {
    if order == [] || Before(keys, order[|order| - 1], x) then
      order + [x]
    else
      var init, last := order[..|order| - 1], order[|order| - 1];
      assert Before(keys, x, last);
      assert order == init + [last];
      var rest := InsertRanked(keys, x, init);
      assert forall y :: y in rest ==> Before(keys, y, last) by {
        forall y | y in rest ensures Before(keys, y, last) {
          if y != x {
            var k :| 0 <= k < |init| && init[k] == y;
            assert order[k] == y;
          }
        }
      }
      rest + [last]
  }

  function RankPrefix(keys: seq<real>, n: nat): (r: seq<nat>)
    requires n <= |keys|
    ensures |r| == n
    ensures forall y: int :: y in r <==> 0 <= y < n
    ensures RankedBy(keys, r)
  {
    if n == 0 then []
    else
      var prev := RankPrefix(keys, n - 1);
      var r := InsertRanked(keys, n - 1, prev);
      assert forall y: int :: y in r <==> 0 <= y < n by {
        forall y: int ensures y in r <==> 0 <= y < n {
          assert y in r <==> y == n - 1 || y in prev;
        }
      }
      r
  }

  /** The indices of keys, largest key first, equal keys in index order: what a
      stable descending sort produces. */
  function Rank(keys: seq<real>): (r: seq<nat>)
    ensures |r| == |keys|
    ensures forall y: int :: y in r <==> 0 <= y < |keys|
    ensures RankedBy(keys, r)
  {
    RankPrefix(keys, |keys|)
  }

  /** A ranking lists each index exactly once. */
  lemma RankIsPermutation(keys: seq<real>)
    ensures Distinct(Rank(keys))
  {
    var r := Rank(keys);
    forall i, j | 0 <= i < j < |r| ensures r[i] != r[j] {
      assert Before(keys, r[i], r[j]);
    }
    DistinctPairwise(r);
  }

  /** The first index ranked holds a largest key and no earlier index holds as
      large a key: Python's `max(..., key=...)`, which returns the first maximum. */
  lemma RankHeadIsFirstMaximum(keys: seq<real>)
    requires keys != []
    ensures forall j :: 0 <= j < |keys| ==> keys[j] <= keys[Rank(keys)[0]]
    ensures forall j :: 0 <= j < Rank(keys)[0] ==> keys[j] < keys[Rank(keys)[0]]
  {
    var r := Rank(keys);
    forall j | 0 <= j < |keys| ensures keys[j] <= keys[r[0]] && (j < r[0] ==> keys[j] < keys[r[0]]) {
      assert j in r;
      var i :| 0 <= i < |r| && r[i] == j;
      if i > 0 { assert Before(keys, r[0], r[i]); }
    }
  }

  /** Whatever is ranked in the first m places has a key at least as large as
      whatever is ranked after them. */
  lemma RankPrefixDominates(keys: seq<real>, m: nat, a: nat, b: nat)
    requires m <= |keys| && a < m <= b < |keys|
    ensures keys[Rank(keys)[a]] >= keys[Rank(keys)[b]]
  {
    assert Before(keys, Rank(keys)[a], Rank(keys)[b]);
  }

  /** The first m places of a ranking are m distinct indices, none ranked below an
      index left out. */
  lemma RankPrefixIsTop(keys: seq<real>, m: nat)
    requires m <= |keys|
    ensures Distinct(Rank(keys)[..m])
    ensures forall i :: 0 <= i < m ==> Rank(keys)[i] < |keys|
    ensures forall i, j :: 0 <= i < m && 0 <= j < |keys| && j !in Rank(keys)[..m] ==> keys[Rank(keys)[i]] >= keys[j]
  {
    var order := Rank(keys);
    RankIsPermutation(keys);
    DistinctPairwise(order);
    DistinctPairwise(order[..m]);
    forall i, j | 0 <= i < m && 0 <= j < |keys| && j !in order[..m]
      ensures keys[order[i]] >= keys[j]
    {
      assert j in order;
      var b :| 0 <= b < |order| && order[b] == j;
      RankPrefixDominates(keys, m, i, b);
    }
  }
}
