/**
 * The movie average pass (`RecalculateWeights` in ArloVsMocks/Program.cs):
 * a movie's average is the mean of its stars weighted by the raters' weights.
 */
module MovieAverages {
  import opened Wrappers
  import opened Ratings

  predicate RatersKnown(rs: seq<Rating>, weights: map<int, real>) {
    forall x :: x in rs ==> x.criticId in weights
  }

  predicate RatersPositive(rs: seq<Rating>, weights: map<int, real>) {
    forall x :: x in rs ==> x.criticId in weights && weights[x.criticId] > 0.0
  }

  /** `weightTotal`, the sum of `r.Critic.RatingWeight` over the ratings. */
  function WeightTotal(rs: seq<Rating>, weights: map<int, real>): (t: real)
    requires RatersKnown(rs, weights)
    ensures RatersPositive(rs, weights) ==> (t > 0.0 <==> rs != [])
  {
    if rs == [] then 0.0
    else
      assert forall x :: x in rs[1..] ==> x in rs;
      weights[rs[0].criticId] + WeightTotal(rs[1..], weights)
  }

  /** `ratingTotal`, the sum of `r.Stars * r.Critic.RatingWeight` over the ratings. */
  function RatingTotal(rs: seq<Rating>, weights: map<int, real>): real
    requires RatersKnown(rs, weights)
  {
    if rs == [] then 0.0
    else
      assert forall x :: x in rs[1..] ==> x in rs;
      rs[0].stars as real * weights[rs[0].criticId] + RatingTotal(rs[1..], weights)
  }

  /**
   * `ratingTotal / weightTotal`; `None` where the weight total is zero, which
   * the source leaves to floating-point division.
   */
  function WeightedAverage(rs: seq<Rating>, weights: map<int, real>): (a: Option<real>)
    requires RatersKnown(rs, weights)
    ensures RatersPositive(rs, weights) ==> (a.None? <==> rs == [])
    ensures rs == [] ==> a.None?
  {
    var total := WeightTotal(rs, weights);
    if total == 0.0 then None else Some(RatingTotal(rs, weights) / total)
  }

  lemma ScaleMonotone(a: real, b: real, w: real)
    requires a <= b && w > 0.0
    ensures a * w <= b * w
  {
    assert (b - a) * w >= 0.0;
  }

  /** Weighted stars stay between `lo` and `hi` times the weight total. */
  lemma TotalsBounded(rs: seq<Rating>, weights: map<int, real>, lo: int, hi: int)
    requires RatersPositive(rs, weights)
    requires forall x :: x in rs ==> lo <= x.stars <= hi
    ensures lo as real * WeightTotal(rs, weights) <= RatingTotal(rs, weights) <= hi as real * WeightTotal(rs, weights)
  {
    TotalAbove(rs, weights, lo as real);
    TotalBelow(rs, weights, hi as real);
  }

  lemma {:induction false} TotalAbove(rs: seq<Rating>, weights: map<int, real>, lo: real)
    requires RatersPositive(rs, weights)
    requires forall x :: x in rs ==> lo <= x.stars as real
    ensures lo * WeightTotal(rs, weights) <= RatingTotal(rs, weights)
  {
    if rs == [] {
      assert WeightTotal(rs, weights) == 0.0 && RatingTotal(rs, weights) == 0.0;
    } else {
      var tail := rs[1..];
      assert forall x :: x in tail ==> x in rs;
      assert rs[0] in rs;
      TotalAbove(tail, weights, lo);
      AddRatingAbove(lo, rs[0].stars as real, weights[rs[0].criticId],
                     WeightTotal(tail, weights), RatingTotal(tail, weights));
    }
  }

  lemma {:induction false} TotalBelow(rs: seq<Rating>, weights: map<int, real>, hi: real)
    requires RatersPositive(rs, weights)
    requires forall x :: x in rs ==> x.stars as real <= hi
    ensures RatingTotal(rs, weights) <= hi * WeightTotal(rs, weights)
  {
    if rs == [] {
      assert WeightTotal(rs, weights) == 0.0 && RatingTotal(rs, weights) == 0.0;
    } else {
      var tail := rs[1..];
      assert forall x :: x in tail ==> x in rs;
      assert rs[0] in rs;
      TotalBelow(tail, weights, hi);
      AddRatingBelow(hi, rs[0].stars as real, weights[rs[0].criticId],
                     WeightTotal(tail, weights), RatingTotal(tail, weights));
    }
  }

  /** One more rating of at least `lo` stars keeps `lo * weightTotal <= ratingTotal`. */
  lemma AddRatingAbove(lo: real, stars: real, w: real, weightTotal: real, ratingTotal: real)
    requires lo <= stars && w > 0.0 && lo * weightTotal <= ratingTotal
    ensures lo * (w + weightTotal) <= stars * w + ratingTotal
  {
    ScaleMonotone(lo, stars, w);
    Distribute(lo, w, weightTotal);
  }

  /** One more rating of at most `hi` stars keeps `ratingTotal <= hi * weightTotal`. */
  lemma AddRatingBelow(hi: real, stars: real, w: real, weightTotal: real, ratingTotal: real)
    requires stars <= hi && w > 0.0 && ratingTotal <= hi * weightTotal
    ensures stars * w + ratingTotal <= hi * (w + weightTotal)
  {
    ScaleMonotone(stars, hi, w);
    Distribute(hi, w, weightTotal);
  }

  lemma CancelFactor(a: real, b: real, k: real)
    requires b != 0.0 && k != 0.0
    ensures (a * k) / (b * k) == a / b
  {
    var q := a / b;
    assert a == q * b;
    assert a * k == q * (b * k);
  }

  lemma Distribute(k: real, a: real, b: real)
    ensures k * (a + b) == k * a + k * b
  {
  }

  /**
   * With positive weights, a rated movie's average lies between the lowest and
   * the highest stars it received.
   */
  lemma AverageWithinStars(rs: seq<Rating>, weights: map<int, real>, lo: int, hi: int)
    requires RatersPositive(rs, weights) && rs != []
    requires forall x :: x in rs ==> lo <= x.stars <= hi
    ensures WeightedAverage(rs, weights).Some?
    ensures lo as real <= WeightedAverage(rs, weights).value <= hi as real
  {
    TotalsBounded(rs, weights, lo, hi);
    var total := WeightTotal(rs, weights);
    var sum := RatingTotal(rs, weights);
    assert sum / total >= lo as real by {
      assert sum - lo as real * total >= 0.0;
      assert (sum - lo as real * total) / total >= 0.0;
      assert (sum - lo as real * total) / total == sum / total - lo as real;
    }
    assert sum / total <= hi as real by {
      assert hi as real * total - sum >= 0.0;
      assert (hi as real * total - sum) / total >= 0.0;
      assert (hi as real * total - sum) / total == hi as real - sum / total;
    }
  }

  /** When every rater carries the same positive weight, the average is the plain mean of the stars. */
  lemma EqualWeightsGivePlainMean(rs: seq<Rating>, weights: map<int, real>, w: real)
    requires RatersKnown(rs, weights) && w > 0.0 && rs != []
    requires forall x :: x in rs ==> weights[x.criticId] == w
    ensures WeightedAverage(rs, weights) == Some(StarsTotal(rs) / |rs| as real)
  {
    EqualWeightRatio(rs, weights, w);
    var total := WeightTotal(rs, weights);
    assert WeightedAverage(rs, weights) == Some(RatingTotal(rs, weights) / total);
  }

  lemma EqualWeightRatio(rs: seq<Rating>, weights: map<int, real>, w: real)
    requires RatersKnown(rs, weights) && w > 0.0 && rs != []
    requires forall x :: x in rs ==> weights[x.criticId] == w
    ensures WeightTotal(rs, weights) != 0.0
    ensures RatingTotal(rs, weights) / WeightTotal(rs, weights) == StarsTotal(rs) / |rs| as real
  {
    EqualWeightTotal(rs, weights, w);
    EqualWeightRatingTotal(rs, weights, w);
    ScaledMean(RatingTotal(rs, weights), WeightTotal(rs, weights), StarsTotal(rs), |rs| as real, w);
  }

  lemma ScaledMean(ratingTotal: real, weightTotal: real, starsTotal: real, count: real, w: real)
    requires count > 0.0 && w > 0.0
    requires ratingTotal == starsTotal * w && weightTotal == count * w
    ensures weightTotal != 0.0 && ratingTotal / weightTotal == starsTotal / count
  {
    ScaleMonotone(0.0, count, w);
    assert weightTotal != 0.0;
    CancelFactor(starsTotal, count, w);
  }

  lemma {:induction false} EqualWeightTotal(rs: seq<Rating>, weights: map<int, real>, w: real)
    requires RatersKnown(rs, weights)
    requires forall x :: x in rs ==> weights[x.criticId] == w
    ensures WeightTotal(rs, weights) == |rs| as real * w
  {
    if rs == [] {
      assert WeightTotal(rs, weights) == 0.0;
    } else {
      var tail := rs[1..];
      assert forall x :: x in tail ==> x in rs;
      assert rs[0] in rs;
      calc {
        WeightTotal(rs, weights);
        ==
        w + WeightTotal(tail, weights);
        == { EqualWeightTotal(tail, weights, w); }
        w + |tail| as real * w;
        == { Distribute(w, 1.0, |tail| as real); }
        (1.0 + |tail| as real) * w;
        ==
        |rs| as real * w;
      }
    }
  }

  lemma {:induction false} EqualWeightRatingTotal(rs: seq<Rating>, weights: map<int, real>, w: real)
    requires RatersKnown(rs, weights)
    requires forall x :: x in rs ==> weights[x.criticId] == w
    ensures RatingTotal(rs, weights) == StarsTotal(rs) * w
  {
    if rs == [] {
      assert RatingTotal(rs, weights) == 0.0 && StarsTotal(rs) == 0.0;
    } else {
      var tail := rs[1..];
      assert forall x :: x in tail ==> x in rs;
      assert rs[0] in rs;
      calc {
        RatingTotal(rs, weights);
        ==
        rs[0].stars as real * w + RatingTotal(tail, weights);
        == { EqualWeightRatingTotal(tail, weights, w); }
        rs[0].stars as real * w + StarsTotal(tail) * w;
        == { Distribute(w, rs[0].stars as real, StarsTotal(tail)); }
        (rs[0].stars as real + StarsTotal(tail)) * w;
        ==
        StarsTotal(rs) * w;
      }
    }
  }

  /** The sum of the stars, the reference against which equal weights are checked. */
  function StarsTotal(rs: seq<Rating>): real {
    if rs == [] then 0.0 else rs[0].stars as real + StarsTotal(rs[1..])
  }

  /**
   * Every movie's average after the pass over `db.Movies`, each computed from
   * that movie's own ratings and the given weights.
   */
  function NewAverages(rs: seq<Rating>, weights: map<int, real>, averages: map<int, Option<real>>): (r: map<int, Option<real>>)
    requires RatersKnown(rs, weights)
    ensures r.Keys == averages.Keys
  {
    map m | m in averages :: WeightedAverage(ByMovie(rs, m), weights)
  }

  /** With positive weights, a movie gets an average exactly when it has a rating. */
  lemma RatedMoviesAveraged(rs: seq<Rating>, weights: map<int, real>, averages: map<int, Option<real>>)
    requires RatersPositive(rs, weights)
    ensures forall m :: m in averages ==>
              (NewAverages(rs, weights, averages)[m].Some? <==> exists x :: x in rs && x.movieId == m)
  {
    forall m | m in averages
      ensures NewAverages(rs, weights, averages)[m].Some? <==> exists x :: x in rs && x.movieId == m
    {
      var mine := ByMovie(rs, m);
      assert RatersPositive(mine, weights);
      if exists x :: x in rs && x.movieId == m {
        var x :| x in rs && x.movieId == m;
        InByMovie(rs, x);
      }
    }
  }

  /**
   * A movie's new average depends only on its own ratings: two tables that
   * agree on the ratings of movie `m` give `m` the same average. This holds
   * by the definition of `NewAverages` and keeps that locality on record.
   */
  lemma AverageIsLocal(rs1: seq<Rating>, rs2: seq<Rating>, weights: map<int, real>,
                       averages: map<int, Option<real>>, m: int)
    requires RatersKnown(rs1, weights) && RatersKnown(rs2, weights)
    requires m in averages && ByMovie(rs1, m) == ByMovie(rs2, m)
    ensures NewAverages(rs1, weights, averages)[m] == NewAverages(rs2, weights, averages)[m]
  {
  }
}
