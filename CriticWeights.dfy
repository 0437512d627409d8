/**
 * The critic weight pass (`UpdateCriticRating` in ArloVsMocks/Program.cs):
 * a critic's weight falls as the mean distance between their stars and the
 * movies' current averages grows.
 */
module CriticWeights {
  import opened Wrappers
  import opened Ratings

  /** The two C# literals 0.15 and 0.33 and the default 1.0, read as exact reals. */
  const LowWeight: real := 0.15
  const MediumWeight: real := 0.33
  const FullWeight: real := 1.0

  predicate IsPolicyWeight(w: real) {
    w == LowWeight || w == MediumWeight || w == FullWeight
  }

  function Abs(x: real): (r: real)
    ensures r >= 0.0 && (r == x || r == -x)
  {
    if x < 0.0 then -x else x
  }

  /** The local function `CalculateRatingWeightByDisparity`: first matching arm wins. */
  function WeightByDisparity(disparity: real): (w: real)
    ensures IsPolicyWeight(w)
    ensures 0.0 < w <= FullWeight
  {
    if disparity > 2.0 then LowWeight
    else if disparity > 1.0 then MediumWeight
    else FullWeight
  }

  /** Each weight is chosen by exactly one disparity band; both band edges belong to the lower band. */
  lemma WeightBands(disparity: real)
    ensures WeightByDisparity(disparity) == LowWeight <==> disparity > 2.0
    ensures WeightByDisparity(disparity) == MediumWeight <==> 1.0 < disparity <= 2.0
    ensures WeightByDisparity(disparity) == FullWeight <==> disparity <= 1.0
  {
  }

  lemma WeightBoundaries()
    ensures WeightByDisparity(1.0) == FullWeight
    ensures WeightByDisparity(2.0) == MediumWeight
  {
  }

  /** More disparity never buys more weight. */
  lemma WeightNonIncreasing(d1: real, d2: real)
    requires d1 <= d2
    ensures WeightByDisparity(d2) <= WeightByDisparity(d1)
  {
  }

  /** `r.Movie.AverageRating.HasValue`. */
  predicate HasAverage(r: Rating, averages: map<int, Option<real>>) {
    r.movieId in averages && averages[r.movieId].Some?
  }

  /** `critic.Ratings.Where(r => r.Movie.AverageRating.HasValue)`. */
  function WithAverages(rs: seq<Rating>, averages: map<int, Option<real>>): (r: seq<Rating>)
    ensures forall x :: x in r ==> x in rs && HasAverage(x, averages)
  {
    if rs == [] then []
    else (if HasAverage(rs[0], averages) then [rs[0]] else []) + WithAverages(rs[1..], averages)
  }

  /** No rating whose movie has an average is dropped by `WithAverages`. */
  lemma {:induction false} InWithAverages(rs: seq<Rating>, averages: map<int, Option<real>>, x: Rating)
    requires x in rs && HasAverage(x, averages)
    ensures x in WithAverages(rs, averages)
  {
    if x != rs[0] {
      InWithAverages(rs[1..], averages, x);
    }
  }

  /** The distance between a rating's stars and its movie's current average. */
  function Disparity(r: Rating, averages: map<int, Option<real>>): (d: real)
    requires HasAverage(r, averages)
    ensures d >= 0.0
    ensures d == r.stars as real - averages[r.movieId].value || d == averages[r.movieId].value - r.stars as real
  {
    Abs(r.stars as real - averages[r.movieId].value)
  }

  /** `totalDisparity`, the sum of the disparities of ratings whose movie has an average. */
  function TotalDisparity(rs: seq<Rating>, averages: map<int, Option<real>>): (t: real)
    requires forall x :: x in rs ==> HasAverage(x, averages)
    ensures t >= 0.0
  {
    if rs == [] then 0.0
    else
      assert forall x :: x in rs[1..] ==> x in rs;
      Disparity(rs[0], averages) + TotalDisparity(rs[1..], averages)
  }

  /** The total disparity is zero exactly when every rating equals its movie's average. */
  lemma {:induction false} TotalDisparityZeroIff(rs: seq<Rating>, averages: map<int, Option<real>>)
    requires forall x :: x in rs ==> HasAverage(x, averages)
    ensures TotalDisparity(rs, averages) == 0.0 <==> forall x :: x in rs ==> Disparity(x, averages) == 0.0
  {
    if rs != [] {
      var tail := rs[1..];
      assert forall x :: x in rs <==> x == rs[0] || x in tail;
      TotalDisparityZeroIff(tail, averages);
    }
  }

  /**
   * `relativeDisparity`, the mean disparity over the ratings whose movie has
   * an average; `None` where that set is empty and the source computes 0.0 / 0.
   */
  function RelativeDisparity(rs: seq<Rating>, averages: map<int, Option<real>>): (d: Option<real>)
    ensures d.None? <==> forall x :: x in rs ==> !HasAverage(x, averages)
    ensures d.Some? ==> d.value >= 0.0
    ensures d.Some? ==> (d.value == 0.0 <==>
              forall x :: x in rs && HasAverage(x, averages) ==> Disparity(x, averages) == 0.0)
  {
    var comparable := WithAverages(rs, averages);
    assert forall x :: x in rs && HasAverage(x, averages) ==> x in comparable by {
      forall x | x in rs && HasAverage(x, averages) ensures x in comparable {
        InWithAverages(rs, averages, x);
      }
    }
    if |comparable| == 0 then
      None
    else
      assert comparable[0] in comparable;
      TotalDisparityZeroIff(comparable, averages);
      Some(TotalDisparity(comparable, averages) / |comparable| as real)
  }

  /**
   * The weight written for a critic whose ratings are `rs`. The undefined mean
   * is NaN in the source; it fails both `> 2` and `> 1` and so takes the
   * default arm, weight 1.0.
   */
  function CriticWeight(rs: seq<Rating>, averages: map<int, Option<real>>): (w: real)
    ensures IsPolicyWeight(w) && w > 0.0
    ensures (forall x :: x in rs ==> !HasAverage(x, averages)) ==> w == FullWeight
    ensures (forall x :: x in rs && HasAverage(x, averages) ==> Disparity(x, averages) == 0.0) ==> w == FullWeight
  {
    match RelativeDisparity(rs, averages)
    case None => FullWeight
    case Some(d) => WeightByDisparity(d)
  }

  /** `k` added up `n` times. */
  function Times(n: nat, k: real): real {
    if n == 0 then 0.0 else k + Times(n - 1, k)
  }

  lemma {:induction false} TimesIsProduct(n: nat, k: real)
    ensures Times(n, k) == n as real * k
  {
    if n > 0 {
      TimesIsProduct(n - 1, k);
      assert n as real * k == (n - 1) as real * k + k;
    }
  }

  /** Disparities of at most `hi` sum to at most `hi` per rating. */
  lemma {:induction false} TotalDisparityAtMost(rs: seq<Rating>, averages: map<int, Option<real>>, hi: real)
    requires forall x :: x in rs ==> HasAverage(x, averages)
    requires forall x :: x in rs ==> Disparity(x, averages) <= hi
    ensures TotalDisparity(rs, averages) <= Times(|rs|, hi)
  {
    if rs != [] {
      var tail := rs[1..];
      assert forall x :: x in tail ==> x in rs;
      assert rs[0] in rs;
      TotalDisparityAtMost(tail, averages, hi);
    }
  }

  /** Disparities of at least `lo` sum to at least `lo` per rating. */
  lemma {:induction false} TotalDisparityAtLeast(rs: seq<Rating>, averages: map<int, Option<real>>, lo: real)
    requires forall x :: x in rs ==> HasAverage(x, averages)
    requires forall x :: x in rs ==> lo <= Disparity(x, averages)
    ensures Times(|rs|, lo) <= TotalDisparity(rs, averages)
  {
    if rs != [] {
      var tail := rs[1..];
      assert forall x :: x in tail ==> x in rs;
      assert rs[0] in rs;
      TotalDisparityAtLeast(tail, averages, lo);
    }
  }

  /** Disparities all above `lo` sum to more than `lo` per rating, when there is one. */
  lemma {:induction false} TotalDisparityAbove(rs: seq<Rating>, averages: map<int, Option<real>>, lo: real)
    requires rs != []
    requires forall x :: x in rs ==> HasAverage(x, averages)
    requires forall x :: x in rs ==> lo < Disparity(x, averages)
    ensures Times(|rs|, lo) < TotalDisparity(rs, averages)
  {
    var tail := rs[1..];
    assert forall x :: x in tail ==> x in rs;
    assert rs[0] in rs;
    if tail != [] {
      TotalDisparityAbove(tail, averages, lo);
    }
  }

  /** A total of at least `lo` per item means an average of at least `lo`. */
  lemma DivAtLeast(t: real, n: nat, lo: real)
    requires n > 0 && Times(n, lo) <= t
    ensures lo <= t / n as real
  {
    TimesIsProduct(n, lo);
    assert t / n as real - lo == (t - n as real * lo) / n as real;
  }

  lemma DivAtMost(t: real, n: nat, hi: real)
    requires n > 0 && t <= Times(n, hi)
    ensures t / n as real <= hi
  {
    TimesIsProduct(n, hi);
    assert hi - t / n as real == (n as real * hi - t) / n as real;
  }

  lemma DivAbove(t: real, n: nat, lo: real)
    requires n > 0 && Times(n, lo) < t
    ensures lo < t / n as real
  {
    TimesIsProduct(n, lo);
    assert t / n as real - lo == (t - n as real * lo) / n as real;
  }

  /** The ratings the mean is taken over: at least one when some rating is comparable. */
  lemma ComparableNonEmpty(rs: seq<Rating>, averages: map<int, Option<real>>)
    requires exists x :: x in rs && HasAverage(x, averages)
    ensures |WithAverages(rs, averages)| > 0
  {
    var x :| x in rs && HasAverage(x, averages);
    InWithAverages(rs, averages, x);
  }

  /**
   * The mean lies within any bounds of the comparable disparities: it is a
   * mean, not a sum. With `lo == hi` it is that common disparity.
   */
  lemma RelativeDisparityBounded(rs: seq<Rating>, averages: map<int, Option<real>>, lo: real, hi: real)
    requires exists x :: x in rs && HasAverage(x, averages)
    requires forall x :: x in rs && HasAverage(x, averages) ==> lo <= Disparity(x, averages) <= hi
    ensures RelativeDisparity(rs, averages).Some?
    ensures lo <= RelativeDisparity(rs, averages).value <= hi
  {
    var comparable := WithAverages(rs, averages);
    ComparableNonEmpty(rs, averages);
    var n := |comparable|;
    var t := TotalDisparity(comparable, averages);
    TotalDisparityAtLeast(comparable, averages, lo);
    TotalDisparityAtMost(comparable, averages, hi);
    DivAtLeast(t, n, lo);
    DivAtMost(t, n, hi);
    assert RelativeDisparity(rs, averages) == Some(t / n as real);
  }

  /** Comparable disparities all above `lo` give a mean above `lo`. */
  lemma RelativeDisparityAbove(rs: seq<Rating>, averages: map<int, Option<real>>, lo: real)
    requires exists x :: x in rs && HasAverage(x, averages)
    requires forall x :: x in rs && HasAverage(x, averages) ==> lo < Disparity(x, averages)
    ensures RelativeDisparity(rs, averages).Some?
    ensures lo < RelativeDisparity(rs, averages).value
  {
    var comparable := WithAverages(rs, averages);
    ComparableNonEmpty(rs, averages);
    var n := |comparable|;
    var t := TotalDisparity(comparable, averages);
    TotalDisparityAbove(comparable, averages, lo);
    DivAbove(t, n, lo);
    assert RelativeDisparity(rs, averages) == Some(t / n as real);
  }

  /** A critic never further than 1 from any average keeps full weight. */
  lemma CriticWeightFullBand(rs: seq<Rating>, averages: map<int, Option<real>>)
    requires forall x :: x in rs && HasAverage(x, averages) ==> Disparity(x, averages) <= 1.0
    ensures CriticWeight(rs, averages) == FullWeight
  {
    if exists x :: x in rs && HasAverage(x, averages) {
      RelativeDisparityBounded(rs, averages, 0.0, 1.0);
    }
  }

  /** A critic between 1 (exclusive) and 2 (inclusive) from every average gets 0.33. */
  lemma CriticWeightMediumBand(rs: seq<Rating>, averages: map<int, Option<real>>)
    requires exists x :: x in rs && HasAverage(x, averages)
    requires forall x :: x in rs && HasAverage(x, averages) ==> 1.0 < Disparity(x, averages) <= 2.0
    ensures CriticWeight(rs, averages) == MediumWeight
  {
    RelativeDisparityAbove(rs, averages, 1.0);
    RelativeDisparityBounded(rs, averages, 1.0, 2.0);
  }

  /** A critic more than 2 from every average gets 0.15. */
  lemma CriticWeightLowBand(rs: seq<Rating>, averages: map<int, Option<real>>)
    requires exists x :: x in rs && HasAverage(x, averages)
    requires forall x :: x in rs && HasAverage(x, averages) ==> 2.0 < Disparity(x, averages)
    ensures CriticWeight(rs, averages) == LowWeight
  {
    RelativeDisparityAbove(rs, averages, 2.0);
  }

  /** `c.Ratings.Count > 0`. */
  predicate HasRated(rs: seq<Rating>, criticId: int) {
    |ByCritic(rs, criticId)| > 0
  }

  /** A critic has rated exactly when some rating of the table is theirs. */
  lemma HasRatedIff(rs: seq<Rating>, criticId: int)
    ensures HasRated(rs, criticId) <==> exists x :: x in rs && x.criticId == criticId
  {
    if exists x :: x in rs && x.criticId == criticId {
      var x :| x in rs && x.criticId == criticId;
      InByCritic(rs, x);
    }
    if HasRated(rs, criticId) {
      var y := ByCritic(rs, criticId)[0];
      assert y in ByCritic(rs, criticId);
    }
  }

  /**
   * One critic's weight after the pass over `criticsHavingRated`: a critic
   * with ratings gets the policy weight computed against `averages`, any other
   * critic keeps their weight.
   */
  function Reweighed(rs: seq<Rating>, averages: map<int, Option<real>>, weights: map<int, real>, criticId: int): (w: real)
    requires criticId in weights
    ensures !HasRated(rs, criticId) ==> w == weights[criticId]
    ensures HasRated(rs, criticId) ==> IsPolicyWeight(w) && w > 0.0
  {
    if HasRated(rs, criticId) then CriticWeight(ByCritic(rs, criticId), averages) else weights[criticId]
  }

  /** Every critic's weight after the pass over `criticsHavingRated`. */
  function NewWeights(rs: seq<Rating>, averages: map<int, Option<real>>, weights: map<int, real>): (r: map<int, real>)
    ensures r.Keys == weights.Keys
    ensures forall c :: c in weights && !HasRated(rs, c) ==> r[c] == weights[c]
    ensures forall c :: c in weights && HasRated(rs, c) ==> IsPolicyWeight(r[c]) && r[c] > 0.0
  {
    map c | c in weights :: Reweighed(rs, averages, weights, c)
  }

  /** A map that reweighs every critic as `Reweighed` does is the pass's result. */
  lemma NewWeightsPointwise(rs: seq<Rating>, averages: map<int, Option<real>>, weights: map<int, real>, w: map<int, real>)
    requires w.Keys == weights.Keys
    requires forall c :: c in w ==> w[c] == Reweighed(rs, averages, weights, c)
    ensures w == NewWeights(rs, averages, weights)
  {
  }

  /** After the pass, every critic some rating refers to has a positive weight. */
  lemma RatersWeighedPositive(rs: seq<Rating>, averages: map<int, Option<real>>, weights: map<int, real>)
    ensures forall x :: x in rs && x.criticId in weights ==>
              IsPolicyWeight(NewWeights(rs, averages, weights)[x.criticId])
  {
    forall x | x in rs && x.criticId in weights
      ensures IsPolicyWeight(NewWeights(rs, averages, weights)[x.criticId])
    {
      InByCritic(rs, x);
    }
  }

  /**
   * The weight of a critic who has rated depends on the averages and on their
   * own ratings only, not on the weight they had before. This holds by the
   * definition of `NewWeights` and keeps that independence on record.
   */
  lemma NewWeightIgnoresOldWeight(rs: seq<Rating>, averages: map<int, Option<real>>,
                                  w1: map<int, real>, w2: map<int, real>, criticId: int)
    requires criticId in w1 && criticId in w2 && HasRated(rs, criticId)
    ensures NewWeights(rs, averages, w1)[criticId] == NewWeights(rs, averages, w2)[criticId]
  {
  }
}
