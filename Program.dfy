/**
 * The in-memory table of one run and the steps `Main` applies to it, in
 * order: rating upsert, critic weight pass, movie average pass, summary.
 * Persistence (`MovieReviewEntities`, `SaveChanges`) is the boundary of the
 * model: the object's state is what a successful run commits.
 */
module Program {
  import opened Wrappers
  import opened Ratings
  import opened CriticWeights
  import opened MovieAverages

  /** The two values `PrintSummary` shows. */
  datatype Summary = Summary(newCriticRatingWeight: real, newMovieRating: real)

  datatype RunError =
    | MovieNotFound(movieId: int)
    | CriticNotFound(criticId: int)
    | AverageUndefined(movieId: int)

  /** A non-empty set of keys has a key to visit next. */
  lemma NonEmptyHasKey(s: set<int>)
    requires s != {}
    ensures exists k :: k in s
  {
    if forall k :: k !in s {
      assert false;
    }
  }

  class MovieReviewDb {
    /** `db.Ratings`, in table order. */
    var ratings: seq<Rating>
    /** `db.Movies`: movie id to `AverageRating`. */
    var averages: map<int, Option<real>>
    /** `db.Critics`: critic id to `RatingWeight`. */
    var weights: map<int, real>

    /** One rating per (movie, critic) pair, and every rating names an existing movie and critic. */
    ghost predicate Valid()
      reads this
    {
      PairsUnique(ratings) && RatingsRefer(ratings, averages.Keys, weights.Keys)
    }

    constructor (rs: seq<Rating>, movies: map<int, Option<real>>, critics: map<int, real>)
      requires PairsUnique(rs) && RatingsRefer(rs, movies.Keys, critics.Keys)
      ensures Valid()
      ensures ratings == rs && averages == movies && weights == critics
    {
      ratings := rs;
      averages := movies;
      weights := critics;
    }

    /** The `SingleOrDefault` lookup of line 37: the position of the pair's rating, if any. */
    method FindRating(movieId: int, criticId: int) returns (index: Option<nat>)
      ensures index.Some? ==> index.value < |ratings| && Matches(ratings[index.value], movieId, criticId)
      ensures index.None? ==> forall i :: 0 <= i < |ratings| ==> !Matches(ratings[i], movieId, criticId)
    {
      var i := 0;
      while i < |ratings|
        invariant 0 <= i <= |ratings|
        invariant forall j :: 0 <= j < i ==> !Matches(ratings[j], movieId, criticId)
      {
        if Matches(ratings[i], movieId, criticId) {
          return Some(i);
        }
        i := i + 1;
      }
      return None;
    }

    /** `CreateOrUpdateNewRating`: append a rating for a new pair, or overwrite the stars in place. */
    method CreateOrUpdateNewRating(movieId: int, criticId: int, stars: int)
      requires Valid() && movieId in averages && criticId in weights
      modifies this
      ensures Valid()
      ensures CountFor(old(ratings), movieId, criticId) <= 1
      ensures ratings == UpsertRating(old(ratings), movieId, criticId, stars)
      ensures averages == old(averages) && weights == old(weights)
    {
      UpsertKeepsTableValid(ratings, averages.Keys, weights.Keys, movieId, criticId, stars);
      var existing := FindRating(movieId, criticId);
      match existing
      case None =>
        CountZeroIff(ratings, movieId, criticId);
        ratings := ratings + [Rating(movieId, criticId, stars)];
      case Some(i) =>
        UpsertAtIndex(ratings, movieId, criticId, stars, i);
        ratings := ratings[i := ratings[i].(stars := stars)];
    }

    /**
     * `UpdateCriticRating`: every critic having rated gets the policy weight
     * computed against the averages as they stand; nothing else changes.
     */
    method UpdateCriticRating()
      requires Valid()
      modifies this
      ensures Valid()
      ensures ratings == old(ratings) && averages == old(averages)
      ensures weights == NewWeights(ratings, averages, old(weights))
    {
      ghost var before := weights;
      var todo := weights.Keys;
      while todo != {}
        invariant ratings == old(ratings) && averages == old(averages)
        invariant todo <= before.Keys
        invariant weights.Keys == before.Keys
        invariant forall c :: c in weights ==>
          weights[c] == if c in todo then before[c] else Reweighed(ratings, averages, before, c)
        decreases todo
      {
        NonEmptyHasKey(todo);
        var critic :| critic in todo;
        // the filter `c.Ratings.Count > 0` of `criticsHavingRated`
        if HasRated(ratings, critic) {
          weights := weights[critic := CriticWeight(ByCritic(ratings, critic), averages)];
        }
        assert weights[critic] == Reweighed(ratings, averages, before, critic);
        todo := todo - {critic};
      }
      NewWeightsPointwise(ratings, averages, before, weights);
    }

    /**
     * `RecalculateWeights`: every movie's average becomes the weighted mean of
     * its ratings under the current weights; nothing else changes.
     */
    method RecalculateWeights()
      requires Valid()
      modifies this
      ensures Valid()
      ensures RatersKnown(ratings, weights)
      ensures ratings == old(ratings) && weights == old(weights)
      ensures averages == NewAverages(ratings, weights, old(averages))
    {
      assert RatersKnown(ratings, weights) by {
        forall x | x in ratings ensures x.criticId in weights {
          var i :| 0 <= i < |ratings| && ratings[i] == x;
        }
      }
      ghost var target := NewAverages(ratings, weights, averages);
      var todo := averages.Keys;
      while todo != {}
        invariant todo <= target.Keys
        invariant ratings == old(ratings) && weights == old(weights)
        invariant averages.Keys == target.Keys
        invariant forall m :: m in averages ==> averages[m] == if m in todo then old(averages)[m] else target[m]
        decreases todo
      {
        NonEmptyHasKey(todo);
        var movie :| movie in todo;
        averages := averages[movie := WeightedAverage(ByMovie(ratings, movie), weights)];
        todo := todo - {movie};
      }
    }

    /**
     * `GetSummary`: the critic's weight and the movie's average, failing when
     * the critic or the movie is missing (checked in that order) or the
     * average is undefined.
     */
    function GetSummary(movieId: int, criticId: int): (r: Result<Summary, RunError>)
      reads this
      ensures r.Success? <==> criticId in weights && movieId in averages && averages[movieId].Some?
      ensures r.Success? ==> r.value == Summary(weights[criticId], averages[movieId].value)
      ensures criticId !in weights ==> r == Failure(CriticNotFound(criticId))
      ensures criticId in weights && movieId !in averages ==> r == Failure(MovieNotFound(movieId))
    {
      if criticId !in weights then Failure(CriticNotFound(criticId))
      else if movieId !in averages then Failure(MovieNotFound(movieId))
      else match averages[movieId]
        case None => Failure(AverageUndefined(movieId))
        case Some(average) => Success(Summary(weights[criticId], average))
    }

    /**
     * One run of `Main` on parsed arguments. An unknown movie or critic stops
     * the run with nothing changed; otherwise the three steps run in order and
     * the summary is always available.
     */
    method ProcessRating(movieId: int, criticId: int, stars: int) returns (r: Result<Summary, RunError>)
      requires Valid()
      modifies this
      ensures Valid()
      ensures movieId !in old(averages) ==>
                r == Failure(MovieNotFound(movieId)) && unchanged(this)
      ensures movieId in old(averages) && criticId !in old(weights) ==>
                r == Failure(CriticNotFound(criticId)) && unchanged(this)
      ensures movieId in old(averages) && criticId in old(weights) ==>
                CountFor(old(ratings), movieId, criticId) <= 1 &&
                ratings == UpsertRating(old(ratings), movieId, criticId, stars)
      ensures movieId in old(averages) && criticId in old(weights) ==>
                weights == NewWeights(ratings, old(averages), old(weights))
      ensures movieId in old(averages) && criticId in old(weights) ==>
                RatersKnown(ratings, weights) && averages == NewAverages(ratings, weights, old(averages))
      ensures movieId in old(averages) && criticId in old(weights) ==>
                criticId in weights && movieId in averages && averages[movieId].Some? &&
                r == Success(Summary(weights[criticId], averages[movieId].value))
    {
      if movieId !in averages {
        return Failure(MovieNotFound(movieId));
      }
      if criticId !in weights {
        return Failure(CriticNotFound(criticId));
      }
      ghost var rs, avgs, ws := ratings, averages, weights;
      CreateOrUpdateNewRating(movieId, criticId, stars);
      UpdateCriticRating();
      RecalculateWeights();
      RunAlwaysSummarises(rs, avgs, ws, movieId, criticId, stars, ratings, weights, averages);
      r := GetSummary(movieId, criticId);
    }
  }

  /**
   * After a run on known ids, the critic holds a policy weight and the rated
   * movie has an average, so the summary lookup cannot fail.
   */
  lemma RunAlwaysSummarises(rs: seq<Rating>, averages: map<int, Option<real>>, weights: map<int, real>,
                            movieId: int, criticId: int, stars: int,
                            rs': seq<Rating>, weights': map<int, real>, averages': map<int, Option<real>>)
    requires PairsUnique(rs) && RatingsRefer(rs, averages.Keys, weights.Keys)
    requires movieId in averages && criticId in weights
    requires CountFor(rs, movieId, criticId) <= 1 && rs' == UpsertRating(rs, movieId, criticId, stars)
    requires weights' == NewWeights(rs', averages, weights)
    requires RatersKnown(rs', weights') && averages' == NewAverages(rs', weights', averages)
    ensures IsPolicyWeight(weights'[criticId])
    ensures averages'[movieId].Some?
  {
    UpsertKeepsTableValid(rs, averages.Keys, weights.Keys, movieId, criticId, stars);
    assert RatersPositive(rs', weights') by {
      forall x | x in rs' ensures x.criticId in weights' && weights'[x.criticId] > 0.0 {
        var i :| 0 <= i < |rs'| && rs'[i] == x;
        InByCritic(rs', x);
      }
    }
    CountZeroIff(rs', movieId, criticId);
    var i :| 0 <= i < |rs'| && Matches(rs'[i], movieId, criticId);
    assert rs'[i] in rs';
    RatersWeighedPositive(rs', averages, weights);
    RatedMoviesAveraged(rs', weights', averages);
  }
}
