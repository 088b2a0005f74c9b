/** The pure part of `Round.calculate_allocations`: the per-project score (quorum
    gate, per-method statistic, minimum-amount floor) and the normalisation of the
    scores into token allocations.  `Rounds.Round.CalculateAllocations` runs these
    steps over the projects of a round. */
module Scoring {
  import opened Base
  import opened Numerics

  /** What the scoring step calls but does not define: np.sqrt and the two phantom
      medians of the `aggregation_methods` module, each given the vote list and its
      phantom parameter. */
  datatype Externals = Externals(
    sqrt: real -> real,
    phantomMedian: (seq<real>, int) -> real,
    quadraticPhantomMedian: (seq<real>, int) -> real)

  /** The phantom parameters calculate_allocations passes (t=5 and k=4). */
  const PhantomT: int := 5
  const PhantomK: int := 4

  /** The method names calculate_allocations recognises. */
  const KnownMethods: set<string> := {"median", "mean", "quadratic", "outliers",
    "median_with_moving_phantoms", "quadratic_median_with_moving_phantoms"}

  /** np.sqrt applied to every vote. */
  function Roots(votes: seq<real>, sqrt: real -> real): (r: seq<real>)
    ensures |r| == |votes| && forall i :: 0 <= i < |votes| ==> r[i] == sqrt(votes[i])
  {
    seq(|votes|, i requires 0 <= i < |votes| => sqrt(votes[i]))
  }

  /** `[v for v in votes if lo <= v <= hi]`. */
  function Within(votes: seq<real>, lo: real, hi: real): (r: seq<real>)
    ensures InRange(r, lo, hi)
    ensures multiset(r) <= multiset(votes)
    ensures forall v :: v in votes && lo <= v <= hi ==> v in r
  {
    if votes == [] then []
    else
      var rest := Within(votes[..|votes| - 1], lo, hi);
      var v := votes[|votes| - 1];
      assert votes == votes[..|votes| - 1] + [v];
      if lo <= v <= hi then rest + [v] else rest
  }

  /** The 'outliers' statistic as written: the mean of the votes between the 25th
      and 75th percentiles; np.quantile raises on an empty list. */
  function Outliers(votes: seq<real>): Result<Num> {
    if votes == [] then Failure(EmptyQuantile)
    else Success(Mean(Within(votes, Quantile(votes, 0.25), Quantile(votes, 0.75))))
  }

  /** The per-method statistic of calculate_allocations; an unrecognised name falls
      back to the plain sum of the votes and raises nothing. */
  function Statistic(name: string, votes: seq<real>, ext: Externals): Result<Num> {
    if name == "median" then Success(Median(votes))
    else if name == "mean" then Success(Mean(votes))
    else if name == "quadratic" then Success(Num(Sum(Roots(votes, ext.sqrt))))
    else if name == "outliers" then Outliers(votes)
    else if name == "median_with_moving_phantoms" then Success(Num(ext.phantomMedian(votes, PhantomT)))
    else if name == "quadratic_median_with_moving_phantoms" then Success(Num(ext.quadraticPhantomMedian(votes, PhantomK)))
    else Success(Num(Sum(votes)))
  }

  /** `if score < min_amount: score = 0`; NaN compares false and is kept. */
  function ApplyFloor(s: Num, minAmount: real): Num {
    if s.Num? && s.r < minAmount then Num(0.0) else s
  }

  /** The score of one project from its non-absent vote amounts. */
  function ScoreOf(votes: seq<real>, name: string, quorum: int, minAmount: real, ext: Externals): Result<Num> {
    if |votes| < quorum then Success(Num(0.0))
    else
      match Statistic(name, votes, ext)
      case Failure(e) => Failure(e)
      case Success(s) => Success(ApplyFloor(s, minAmount))
  }

  /** The scores of all projects in order under a per-project scorer; the first
      project whose score raises stops the loop. */
  function ScoresBy(lists: seq<seq<real>>, scorer: seq<real> -> Result<Num>): (r: Result<seq<Num>>)
    ensures r.Success? ==> |r.value| == |lists|
    ensures r.Success? ==> forall j :: 0 <= j < |lists| ==> scorer(lists[j]) == Success(r.value[j])
  {
    if lists == [] then Success([])
    else
      match ScoresBy(lists[..|lists| - 1], scorer)
      case Failure(e) => Failure(e)
      case Success(prev) =>
        match scorer(lists[|lists| - 1])
        case Failure(e) => Failure(e)
        case Success(s) => Success(prev + [s])
  }

  /** The scorer calculate_allocations applies to every project. */
  function Scorer(name: string, quorum: int, minAmount: real, ext: Externals): seq<real> -> Result<Num> {
    votes => ScoreOf(votes, name, quorum, minAmount, ext)
  }

  /** The scores of all projects of a round, in project order. */
  function ScoresOf(lists: seq<seq<real>>, name: string, quorum: int, minAmount: real, ext: Externals): (r: Result<seq<Num>>)
    ensures r.Success? ==> |r.value| == |lists|
    ensures r.Success? ==> forall j :: 0 <= j < |lists| ==> ScoreOf(lists[j], name, quorum, minAmount, ext) == Success(r.value[j])
  {
    var r := ScoresBy(lists, Scorer(name, quorum, minAmount, ext));
    assert r.Success? ==> forall j :: 0 <= j < |lists| ==> ScoreOf(lists[j], name, quorum, minAmount, ext) == Success(r.value[j]) by {
      if r.Success? {
        forall j | 0 <= j < |lists|
          ensures ScoreOf(lists[j], name, quorum, minAmount, ext) == Success(r.value[j])
        {
          assert Scorer(name, quorum, minAmount, ext)(lists[j]) == Success(r.value[j]);
        }
      }
    }
    r
  }

  /** Once a prefix of the projects raises, the whole scoring raises that error. */
  lemma {:induction false} ScoresByFailureSticks(lists: seq<seq<real>>, m: nat, scorer: seq<real> -> Result<Num>, e: Error)
    requires m <= |lists| && ScoresBy(lists[..m], scorer) == Failure(e)
    ensures ScoresBy(lists, scorer) == Failure(e)
    decreases |lists| - m
  {
    if m == |lists| {
      assert lists[..m] == lists;
    } else {
      assert lists[..m + 1][..m] == lists[..m];
      ScoresByFailureSticks(lists, m + 1, scorer, e);
    }
  }

  /** Scoring succeeds with the given scores when every project scores its entry. */
  lemma {:induction false} ScoresByAllSucceed(lists: seq<seq<real>>, scores: seq<Num>, scorer: seq<real> -> Result<Num>)
    requires |scores| == |lists|
    requires forall j :: 0 <= j < |lists| ==> scorer(lists[j]) == Success(scores[j])
    ensures ScoresBy(lists, scorer) == Success(scores)
    decreases |lists|
  {
    if lists != [] {
      var n := |lists| - 1;
      ScoresByAllSucceed(lists[..n], scores[..n], scorer);
      assert scores == scores[..n] + [scores[n]];
    }
  }

  /** Scoring raises the error of the first project whose score raises. */
  lemma ScoresByFirstFailure(lists: seq<seq<real>>, i: nat, scorer: seq<real> -> Result<Num>, e: Error)
    requires i < |lists|
    requires forall j :: 0 <= j < i ==> scorer(lists[j]).Success?
    requires scorer(lists[i]) == Failure(e)
    ensures ScoresBy(lists, scorer) == Failure(e)
  {
    var prefix := seq(i, j requires 0 <= j < i => scorer(lists[j]).value);
    ScoresByAllSucceed(lists[..i], prefix, scorer);
    assert lists[..i + 1][..i] == lists[..i];
    ScoresByFailureSticks(lists, i + 1, scorer, e);
  }

  /** `sum(scores)`: NaN as soon as one score is NaN. */
  function Total(scores: seq<Num>): (t: Num)
    ensures t.Num? <==> forall i :: 0 <= i < |scores| ==> scores[i].Num?
  {
    if scores == [] then Num(0.0)
    else
      match Total(scores[..|scores| - 1])
      case NaN => NaN
      case Num(t) => if scores[|scores| - 1].NaN? then NaN else Num(t + scores[|scores| - 1].r)
  }

  /** The real parts of scores that are all finite. */
  function Reals(scores: seq<Num>): (r: seq<real>)
    requires forall i :: 0 <= i < |scores| ==> scores[i].Num?
    ensures |r| == |scores| && forall i :: 0 <= i < |scores| ==> r[i] == scores[i].r
  {
    seq(|scores|, i requires 0 <= i < |scores| => scores[i].r)
  }

  lemma {:induction false} TotalIsSum(scores: seq<Num>)
    requires forall i :: 0 <= i < |scores| ==> scores[i].Num?
    ensures Total(scores) == Num(Sum(Reals(scores)))
    decreases |scores|
  {
    if scores != [] {
      TotalIsSum(scores[..|scores| - 1]);
      assert Reals(scores[..|scores| - 1]) == Reals(scores)[..|scores| - 1];
    }
  }

  /** The second loop of calculate_allocations as written: with `normalize` every
      score is divided by the total and scaled to max_funding (a total of 0 raises
      ZeroDivisionError, a NaN total makes every allocation NaN); without it the
      allocation is the raw score. */
  function Normalize(scores: seq<Num>, maxFunding: real, normalize: bool): Result<seq<Num>> {
    if !normalize || scores == [] then Success(scores)
    else
      match Total(scores)
      case NaN => Success(seq(|scores|, _ => NaN))
      case Num(t) =>
        if t == 0.0 then Failure(ZeroDivision)
        else Success(Shares(scores, t, maxFunding))
  }

  /** The allocation of the i-th project when normalising does not raise. */
  function NormalizedAt(scores: seq<Num>, i: nat, maxFunding: real, normalize: bool): Num
    requires i < |scores| && !(normalize && Total(scores) == Num(0.0))
  {
    if !normalize then scores[i]
    else
      match Total(scores)
      case NaN => NaN
      case Num(t) => Num(Share(scores[i].r, t, maxFunding))
  }

  /** Normalising raises exactly when it divides a non-empty score list by a zero
      total; otherwise it allocates project by project. */
  lemma NormalizeElementwise(scores: seq<Num>, maxFunding: real, normalize: bool)
    ensures var r := Normalize(scores, maxFunding, normalize);
      r.Failure? <==> normalize && scores != [] && Total(scores) == Num(0.0)
    ensures var r := Normalize(scores, maxFunding, normalize);
      r.Success? ==>
        && |r.value| == |scores|
        && forall i :: 0 <= i < |scores| ==> r.value[i] == NormalizedAt(scores, i, maxFunding, normalize)
  {
  }

  /** `score / total_score * max_funding`. */
  function Share(score: real, t: real, maxFunding: real): real
    requires t != 0.0
  {
    score / t * maxFunding
  }

  /** The share of every project. */
  function Shares(scores: seq<Num>, t: real, maxFunding: real): (r: seq<Num>)
    requires forall i :: 0 <= i < |scores| ==> scores[i].Num?
    requires t != 0.0
    ensures |r| == |scores| && forall i :: 0 <= i < |scores| ==> r[i] == Num(Share(scores[i].r, t, maxFunding))
  {
    seq(|scores|, i requires 0 <= i < |scores| => Num(Share(scores[i].r, t, maxFunding)))
  }

  /** calculate_allocations on the vote lists of the projects, in project order. */
  function Allocations(lists: seq<seq<real>>, name: string, quorum: int, minAmount: real,
                       maxFunding: real, normalize: bool, ext: Externals): Result<seq<Num>> {
    match ScoresOf(lists, name, quorum, minAmount, ext)
    case Failure(e) => Failure(e)
    case Success(scores) => Normalize(scores, maxFunding, normalize)
  }

  // ------------------------------------------------------------- properties

  /** A project short of the quorum scores 0 whatever its votes are. */
  lemma QuorumGate(votes: seq<real>, name: string, quorum: int, minAmount: real, ext: Externals)
    requires |votes| < quorum
    ensures ScoreOf(votes, name, quorum, minAmount, ext) == Success(Num(0.0))
  {
  }

  /** A finite score of a project that met the quorum is 0 or at least min_amount. */
  lemma FloorHolds(votes: seq<real>, name: string, quorum: int, minAmount: real, ext: Externals)
    requires quorum <= |votes|
    requires ScoreOf(votes, name, quorum, minAmount, ext).Success?
    requires ScoreOf(votes, name, quorum, minAmount, ext).value.Num?
    ensures ScoreOf(votes, name, quorum, minAmount, ext).value.r == 0.0
         || ScoreOf(votes, name, quorum, minAmount, ext).value.r >= minAmount
  {
  }

  /** 'median' and 'mean' scores lie between the smallest and the largest vote,
      unless the floor has forced them to 0. */
  lemma CentralScoreWithinVotes(votes: seq<real>, name: string, quorum: int, minAmount: real, ext: Externals)
    requires name == "median" || name == "mean"
    requires votes != [] && quorum <= |votes|
    ensures ScoreOf(votes, name, quorum, minAmount, ext).Success?
    ensures var s := ScoreOf(votes, name, quorum, minAmount, ext).value;
      s.Num? && (s.r == 0.0 || SeqMin(votes) <= s.r <= SeqMax(votes))
  {
    if name == "median" { MedianWithinRange(votes); } else { MeanWithinRange(votes); }
  }

  /** An unrecognised method name scores the sum of the votes and raises nothing. */
  lemma UnknownMethodScoresSum(votes: seq<real>, name: string, quorum: int, minAmount: real, ext: Externals)
    requires name !in KnownMethods && quorum <= |votes|
    ensures ScoreOf(votes, name, quorum, minAmount, ext) == Success(ApplyFloor(Num(Sum(votes)), minAmount))
  {
    assert name != "median" && name != "mean" && name != "quadratic" && name != "outliers";
    assert name != "median_with_moving_phantoms" && name != "quadratic_median_with_moving_phantoms";
    assert Statistic(name, votes, ext) == Success(Num(Sum(votes)));
  }

  /** With normalisation and a finite non-zero total, every project gets a finite
      allocation, a zero score gets nothing, and the allocations add up to
      max_funding. */
  lemma NormalizedSharesSumToFunding(scores: seq<Num>, maxFunding: real)
    requires scores != [] && Total(scores).Num? && Total(scores).r != 0.0
    ensures var r := Normalize(scores, maxFunding, true);
      && r.Success? && |r.value| == |scores|
      && (forall i :: 0 <= i < |scores| ==> r.value[i].Num?)
      && (forall i :: 0 <= i < |scores| && scores[i] == Num(0.0) ==> r.value[i] == Num(0.0))
      && Sum(Reals(r.value)) == maxFunding
  {
    var t := Total(scores).r;
    TotalIsSum(scores);
    var a := Shares(scores, t, maxFunding);
    assert Normalize(scores, maxFunding, true) == Success(a);
    SharesSumTo(scores, t, maxFunding);
    forall i | 0 <= i < |scores| && scores[i] == Num(0.0) ensures a[i] == Num(0.0) {
      ShareIsScaled(0.0, t, maxFunding);
    }
  }

  /** Shares of a total that is the sum of the scores add up to max_funding. */
  lemma SharesSumTo(scores: seq<Num>, t: real, maxFunding: real)
    requires forall i :: 0 <= i < |scores| ==> scores[i].Num?
    requires t != 0.0 && t == Sum(Reals(scores))
    ensures Sum(Reals(Shares(scores, t, maxFunding))) == maxFunding
  {
    var a := Shares(scores, t, maxFunding);
    var c := maxFunding / t;
    var ra, rs := Reals(a), Reals(scores);
    forall i | 0 <= i < |scores| ensures ra[i] == rs[i] * c {
      ShareIsScaled(rs[i], t, maxFunding);
    }
    SumScaled(rs, ra, c);
    ShareIsScaled(t, t, maxFunding);
  }

  lemma ShareIsScaled(x: real, t: real, f: real)
    requires t != 0.0
    ensures Share(x, t, f) == x * (f / t)
    ensures Share(t, t, f) == f
    ensures Share(0.0, t, f) == 0.0
  {
  }

  /** Without normalisation the allocations are the raw scores. */
  lemma RawScoresWithoutNormalize(scores: seq<Num>, maxFunding: real)
    ensures Normalize(scores, maxFunding, false) == Success(scores)
  {
  }

  /** Every project gets one allocation, in project order. */
  lemma AllocationPerProject(lists: seq<seq<real>>, name: string, quorum: int, minAmount: real,
                             maxFunding: real, normalize: bool, ext: Externals)
    requires Allocations(lists, name, quorum, minAmount, maxFunding, normalize, ext).Success?
    ensures |Allocations(lists, name, quorum, minAmount, maxFunding, normalize, ext).value| == |lists|
  {
  }

  // --------------------------------------------------------------- findings

  /** As written: when no project reaches the quorum every score is 0 and the
      normalising division raises ZeroDivisionError. */
  lemma {:induction false} NoQuorumRaises(lists: seq<seq<real>>, name: string, quorum: int, minAmount: real,
                                           maxFunding: real, ext: Externals)
    requires lists != []
    requires forall j :: 0 <= j < |lists| ==> |lists[j]| < quorum
    ensures Allocations(lists, name, quorum, minAmount, maxFunding, true, ext) == Failure(ZeroDivision)
  {
    var scores := AllZeroScores(lists, name, quorum, minAmount, ext);
    TotalIsSum(scores);
    ZeroSum(Reals(scores));
  }

  lemma AllZeroScores(lists: seq<seq<real>>, name: string, quorum: int, minAmount: real, ext: Externals)
      returns (scores: seq<Num>)
    requires forall j :: 0 <= j < |lists| ==> |lists[j]| < quorum
    ensures ScoresOf(lists, name, quorum, minAmount, ext) == Success(scores)
    ensures |scores| == |lists| && forall j :: 0 <= j < |scores| ==> scores[j] == Num(0.0)
  {
    scores := seq(|lists|, _ => Num(0.0));
    var scorer := Scorer(name, quorum, minAmount, ext);
    forall j | 0 <= j < |lists| ensures scorer(lists[j]) == Success(scores[j]) {
      QuorumGate(lists[j], name, quorum, minAmount, ext);
    }
    ScoresByAllSucceed(lists, scores, scorer);
  }

  lemma {:induction false} ZeroSum(s: seq<real>)
    requires forall i :: 0 <= i < |s| ==> s[i] == 0.0
    ensures Sum(s) == 0.0
    decreases |s|
  {
    if s != [] { ZeroSum(s[..|s| - 1]); }
  }

  /** Corrected normalisation: a zero total gives every project a zero allocation
      instead of raising. */
  function NormalizeGuarded(scores: seq<Num>, maxFunding: real, normalize: bool): (r: Result<seq<Num>>)
    ensures r.Success? && |r.value| == |scores|
    ensures normalize && Total(scores) == Num(0.0) ==> forall i :: 0 <= i < |scores| ==> r.value[i] == Num(0.0)
    ensures normalize && Total(scores).Num? && Total(scores).r != 0.0 ==>
      (forall i :: 0 <= i < |scores| ==> r.value[i].Num?) && Sum(Reals(r.value)) == maxFunding
  {
    if normalize && scores != [] && Total(scores) == Num(0.0) then
      Success(seq(|scores|, _ => Num(0.0)))
    else
      var r := Normalize(scores, maxFunding, normalize);
      if normalize && scores != [] && Total(scores).Num? then
        NormalizedSharesSumToFunding(scores, maxFunding);
        r
      else
        r
  }

  /** As written: two distinct votes leave no vote between the 25th and the 75th
      percentile, so 'outliers' takes the mean of an empty list and yields NaN. */
  lemma OutliersOfTwoDistinctVotes(a: real, b: real)
    requires a != b
    ensures Outliers([a, b]) == Success(NaN)
  {
    if a < b {
      QuartilesOfTwo(a, b);
      NoneWithin(a, b, Quantile([a, b], 0.25), Quantile([a, b], 0.75));
    } else {
      QuartilesOfTwoSwapped(a, b);
      NoneWithin(a, b, Quantile([a, b], 0.25), Quantile([a, b], 0.75));
    }
  }

  /** The quartiles of two ascending values lie strictly between them. */
  lemma QuartilesOfTwo(a: real, b: real)
    requires a < b
    ensures a < Quantile([a, b], 0.25) && Quantile([a, b], 0.75) < b
  {
    QuantileOfPair(a, b, 0.25);
    QuantileOfPair(a, b, 0.75);
  }

  /** The quartiles of two descending values lie strictly between them. */
  lemma QuartilesOfTwoSwapped(a: real, b: real)
    requires b < a
    ensures b < Quantile([a, b], 0.25) && Quantile([a, b], 0.75) < a
  {
    QuantileOfPair(a, b, 0.25);
    QuantileOfPair(a, b, 0.75);
  }

  /** A quantile of two distinct values interpolates from the smaller to the larger. */
  lemma QuantileOfPair(a: real, b: real, q: real)
    requires a != b && 0.0 <= q <= 1.0
    ensures a < b ==> Quantile([a, b], q) == a + q * (b - a)
    ensures b < a ==> Quantile([a, b], q) == b + q * (a - b)
  {
    SortTwo(a, b);
    if a < b {
      QuantileOfTwo(a, b, q);
    } else {
      QuantileOfTwo(b, a, q);
    }
  }

  /** Sorting two distinct values puts the smaller first. */
  lemma SortTwo(a: real, b: real)
    requires a != b
    ensures SortAsc([a, b]) == if a < b then [a, b] else [b, a]
  {
    assert [a, b][..1] == [a];
    assert SortAsc([a]) == [a];
  }

  /** Two values both outside [q1, q3] leave nothing within it. */
  lemma NoneWithin(a: real, b: real, q1: real, q3: real)
    requires var lo, hi := if a < b then a else b, if a < b then b else a;
      lo < q1 && q3 < hi && a != b
    ensures Within([a, b], q1, q3) == []
  {
    assert Within([a], q1, q3) == [];
    assert [a, b][..1] == [a];
  }

  /** The linear quantile of two sorted values interpolates between them. */
  lemma QuantileOfTwo(lo: real, hi: real, q: real)
    requires 0.0 <= q <= 1.0
    ensures QuantileSorted([lo, hi], q) == lo + q * (hi - lo)
  {
    if q < 1.0 {
      assert (1.0 * q).Floor == 0;
    } else {
      assert (1.0 * q).Floor == 1;
    }
  }

  /** Corrected 'outliers': when no vote lies between the quartiles, the median
      stands in for the trimmed mean, so a non-empty vote list always scores a
      number between its smallest and largest vote. */
  function OutliersCorrected(votes: seq<real>): (r: Result<Num>)
    ensures votes == [] <==> r.Failure?
    ensures r.Success? ==> r.value.Num? && SeqMin(votes) <= r.value.r <= SeqMax(votes)
  {
    if votes == [] then Failure(EmptyQuantile)
    else
      var kept := Within(votes, Quantile(votes, 0.25), Quantile(votes, 0.75));
      if kept == [] then
        MedianWithinRange(votes);
        Success(Median(votes))
      else
        assert InRange(kept, SeqMin(votes), SeqMax(votes)) by {
          forall i | 0 <= i < |kept| ensures SeqMin(votes) <= kept[i] <= SeqMax(votes) {
            assert kept[i] in multiset(kept);
            assert kept[i] in votes;
          }
        }
        MeanInRange(kept, SeqMin(votes), SeqMax(votes));
        Success(Mean(kept))
  }
}
