# ArloVsMocks recalculation engine in Dafny

ArloVsMocks takes one new star rating from one critic for one movie and then
recomputes two derived values over the whole dataset, once:

1. **Rating upsert.** The (movie, critic) pair's rating gets the new stars, or
   a rating for the pair is created.
2. **Critic weight pass.** Each critic who has rated gets a credibility weight:
   0.15, 0.33 or 1.0. The weight depends on how far, on average, their stars are
   from the movies' current averages. Only ratings of movies that already have
   an average count.
3. **Movie average pass.** Each movie's average becomes the mean of its stars,
   weighted by the new critic weights.
4. **Summary.** The run reads back the critic's new weight and the movie's new
   average.

Layout:

- `Wrappers.dfy`: `Option` and `Result`.
- `Ratings.dfy`: the `Rating` value, the per-critic and per-movie views of the
  table (`critic.Ratings`, `movie.Ratings`), and the upsert as a function on
  the table with its properties.
- `CriticWeights.dfy`: the threshold map, the mean disparity and the critic
  pass, all as functions.
- `MovieAverages.dfy`: the weight and rating totals, the weighted mean and the
  movie pass, all as functions.
- `Program.dfy`: the class `MovieReviewDb`, which holds the tables of one run.
  Its methods do the upsert (a search loop, then an append or an in-place
  update) and the two passes (loops over the critics and over the movies).
  Each method is proved against the functions above. `GetSummary` is a lookup.
  `ProcessRating` runs the steps in the order `Main` calls them.
- `Scenarios.dfy`: worked examples computed from the definitions.

Modelling decisions:

- C# `double` is Dafny `real`. The constants 0.15 and 0.33 are exact.
- In the source, 0.0 / 0 gives NaN when none of a critic's ratings is of a
  movie with an average. NaN fails both `> 2` and `> 1`, so the weight is 1.0.
  The model writes this as an explicit `None` disparity that maps to 1.0.
- A zero weight total makes the average `None` (no defined average). After the
  critic pass every rater's weight is positive, so this happens exactly for
  movies with no ratings (`RatedMoviesAveraged`).
- The new rating counts in the same run for a critic who already had
  ratings. It belongs to that critic's ratings when the critic pass runs. If
  its movie already had an average, the new rating adds to the critic's
  disparity right away. One might expect the new rating to count only from
  the next run; the code does not do that. The model follows the code.
  `Scenarios.NewRatingCountsInSameRun` shows a run where counting it lowers
  the critic's weight from 1.0 to 0.15. This reading assumes Entity Framework
  links the unsaved rating into the loaded entities (see "Left out"). A critic
  whose only rating is the new one is a different case; see "Left out" too.
- Order of the passes. The critic pass reads the averages as they stood before
  the run. The movie pass reads the weights the critic pass just wrote.
  `ProcessRating`'s contract states both.

## Model

| member | source | states |
|---|---|---|
| `Ratings.UpsertRating` | ArloVsMocks/Program.cs:36-44 | afterwards the pair has exactly one rating and it carries the new stars; if the pair had none, the table is the old one plus the new rating at the end; otherwise the length is unchanged; every other rating is unchanged position by position |
| `Ratings.UniqueCountAtMostOne` | ArloVsMocks/Program.cs:36-37 | with one rating per pair, the `SingleOrDefault` lookup never sees two matches |
| `Ratings.UpsertAtIndex` | ArloVsMocks/Program.cs:38-44 | when the rating exists at index i, the upsert only overwrites the stars at i |
| `Ratings.UpsertKeepsTableValid` | ArloVsMocks/Program.cs:36-44 | the upsert keeps one rating per pair, and every rating still names an existing movie and critic |
| `Ratings.UpsertTwice` | ArloVsMocks/Program.cs:36-44 | two upserts of the same pair equal one upsert with the later stars |
| `Ratings.ByCritic` | ArloVsMocks/Program.cs:49-52 | `critic.Ratings` holds only ratings of the table given by that critic |
| `Ratings.InByCritic` | ArloVsMocks/Program.cs:49-52 | every rating of the table appears in its critic's `critic.Ratings` |
| `Ratings.ByMovie` | ArloVsMocks/Program.cs:72-75 | `movie.Ratings` holds only ratings of the table received by that movie |
| `Ratings.InByMovie` | ArloVsMocks/Program.cs:72-75 | every rating of the table appears in its movie's `movie.Ratings` |
| `CriticWeights.WeightByDisparity` | ArloVsMocks/Program.cs:59-67 | the weight is always one of 0.15, 0.33 and 1.0, and lies in (0, 1] |
| `CriticWeights.WeightBands` | ArloVsMocks/Program.cs:61-66 | 0.15 exactly when disparity > 2; 0.33 exactly when 1 < disparity <= 2; 1.0 exactly when disparity <= 1 |
| `CriticWeights.WeightBoundaries` | ArloVsMocks/Program.cs:63-65 | disparity 1.0 maps to 1.0 and disparity 2.0 maps to 0.33 (the comparisons are strict) |
| `CriticWeights.WeightNonIncreasing` | ArloVsMocks/Program.cs:61-66 | a larger disparity never gives a larger weight |
| `CriticWeights.WithAverages` | ArloVsMocks/Program.cs:52 | `ratingsWithAverages` keeps only ratings whose movie has an average |
| `CriticWeights.InWithAverages` | ArloVsMocks/Program.cs:52 | no rating whose movie has an average is dropped |
| `CriticWeights.Disparity` | ArloVsMocks/Program.cs:53 | a rating's disparity is the non-negative distance between its stars and its movie's average |
| `CriticWeights.TotalDisparity` | ArloVsMocks/Program.cs:53 | the total disparity is non-negative |
| `CriticWeights.TotalDisparityZeroIff` | ArloVsMocks/Program.cs:53 | the total disparity is zero exactly when every rating equals its movie's average |
| `CriticWeights.TotalDisparityAtMost` | ArloVsMocks/Program.cs:53 | if every disparity is at most hi, the total is at most hi per rating |
| `CriticWeights.TotalDisparityAtLeast` | ArloVsMocks/Program.cs:53 | if every disparity is at least lo, the total is at least lo per rating |
| `CriticWeights.TotalDisparityAbove` | ArloVsMocks/Program.cs:53 | if there is a rating and every disparity exceeds lo, the total exceeds lo per rating |
| `CriticWeights.RelativeDisparity` | ArloVsMocks/Program.cs:52-54 | the mean is undefined exactly when no rating's movie has an average; otherwise it is non-negative, and zero exactly when every such rating equals its movie's average |
| `CriticWeights.RelativeDisparityBounded` | ArloVsMocks/Program.cs:52-54 | if some rating's movie has an average and every such disparity lies in [lo, hi], the mean is defined and lies in [lo, hi]; with lo = hi it is that common disparity, so it is the mean and not the sum |
| `CriticWeights.RelativeDisparityAbove` | ArloVsMocks/Program.cs:52-54 | if some rating's movie has an average and every such disparity exceeds lo, the mean is defined and exceeds lo |
| `CriticWeights.CriticWeight` | ArloVsMocks/Program.cs:52-56 | the weight is one of the three policy values and positive; it is 1.0 when no rating's movie has an average (the NaN case), and 1.0 when the critic agrees exactly with every average |
| `CriticWeights.CriticWeightFullBand` | ArloVsMocks/Program.cs:52-56 | a critic whose comparable disparities are all at most 1 gets weight 1.0 |
| `CriticWeights.CriticWeightMediumBand` | ArloVsMocks/Program.cs:52-56 | a critic with a comparable rating, all of whose comparable disparities lie in (1, 2], gets weight 0.33 |
| `CriticWeights.CriticWeightLowBand` | ArloVsMocks/Program.cs:52-56 | a critic with a comparable rating, all of whose comparable disparities exceed 2, gets weight 0.15 |
| `CriticWeights.HasRated` | ArloVsMocks/Program.cs:49 | the filter `c.Ratings.Count > 0`: the critic's view of the table is non-empty; its meaning is stated by `HasRatedIff` |
| `CriticWeights.HasRatedIff` | ArloVsMocks/Program.cs:49 | a critic passes the filter exactly when some rating of the table is theirs |
| `CriticWeights.HasAverage` | ArloVsMocks/Program.cs:52 | the filter `r.Movie.AverageRating.HasValue`: the rating's movie exists and has an average; `WithAverages` and `InWithAverages` state the filter built on it |
| `CriticWeights.Reweighed` | ArloVsMocks/Program.cs:49-56 | one critic's weight after the pass: a critic without ratings keeps their weight, a critic with ratings gets a positive policy weight |
| `CriticWeights.NewWeights` | ArloVsMocks/Program.cs:49-57 | the pass keeps the set of critics; critics without ratings keep their old weight; critics with ratings get a positive policy weight |
| `CriticWeights.RatersWeighedPositive` | ArloVsMocks/Program.cs:49-56 | after the pass, every critic that some rating names holds a policy weight |
| `CriticWeights.NewWeightIgnoresOldWeight` | ArloVsMocks/Program.cs:52-56 | a rated critic's new weight does not depend on their previous weight (this follows from the definition of `NewWeights`) |
| `MovieAverages.WeightTotal` | ArloVsMocks/Program.cs:74 | with positive weights, the weight total is positive exactly when the movie has ratings |
| `MovieAverages.RatingTotal` | ArloVsMocks/Program.cs:75 | `ratingTotal`, the sum of stars times rater weight; its properties are stated by `TotalsBounded` and `EqualWeightRatingTotal` |
| `MovieAverages.EqualWeightRatingTotal` | ArloVsMocks/Program.cs:75 | when every rater has weight w, `ratingTotal` is w times the sum of the stars |
| `MovieAverages.WeightedAverage` | ArloVsMocks/Program.cs:74-77 | a movie with no ratings has no average; with positive weights, the average is defined exactly when there are ratings |
| `MovieAverages.TotalsBounded` | ArloVsMocks/Program.cs:74-75 | if all stars lie in [lo, hi], then lo * weightTotal <= ratingTotal <= hi * weightTotal |
| `MovieAverages.AverageWithinStars` | ArloVsMocks/Program.cs:72-78 | with positive weights, a rated movie's average lies between its lowest and highest stars |
| `MovieAverages.EqualWeightsGivePlainMean` | ArloVsMocks/Program.cs:74-77 | when all raters have the same weight, the weighted mean equals the plain mean of the stars |
| `MovieAverages.NewAverages` | ArloVsMocks/Program.cs:72-78 | the pass gives a value to every movie and to no other id |
| `MovieAverages.RatedMoviesAveraged` | ArloVsMocks/Program.cs:72-78 | with positive weights, after the pass a movie has an average exactly when some rating is of it |
| `MovieAverages.AverageIsLocal` | ArloVsMocks/Program.cs:72-78 | two tables with the same ratings for movie m give m the same new average (this follows from the definition of `NewAverages`) |
| `Program.MovieReviewDb.constructor` | ArloVsMocks/Program.cs:11 | the tables of a run start as given, with one rating per pair and every rating naming an existing movie and critic |
| `Program.MovieReviewDb.FindRating` | ArloVsMocks/Program.cs:36-37 | returns the index of a rating of the pair, or reports that there is none |
| `Program.MovieReviewDb.CreateOrUpdateNewRating` | ArloVsMocks/Program.cs:34-45 | the new ratings table is `UpsertRating` of the old one; movies and critics are unchanged; the table invariant holds |
| `Program.MovieReviewDb.UpdateCriticRating` | ArloVsMocks/Program.cs:47-57 | the new weights are `NewWeights` of the ratings, the averages and the old weights; ratings and averages are unchanged |
| `Program.MovieReviewDb.RecalculateWeights` | ArloVsMocks/Program.cs:70-79 | the new averages are `NewAverages` of the ratings and the current weights; ratings and weights are unchanged |
| `Program.MovieReviewDb.GetSummary` | ArloVsMocks/Program.cs:81-87 | succeeds exactly when the critic and the movie exist and the movie has an average, and then returns the critic's weight and the movie's average; a missing critic is reported first, then a missing movie |
| `Program.MovieReviewDb.ProcessRating` | ArloVsMocks/Program.cs:7-29 | an unknown movie or critic fails and changes nothing; otherwise: the upsert, then the critic pass against the averages from before the run, then the movie pass with the just-written weights, and the summary of the two ids always succeeds |
| `Program.RunAlwaysSummarises` | ArloVsMocks/Program.cs:14-20 | after a run on known ids, the critic holds a policy weight and the rated movie has a defined average |
| `Scenarios.TwoRatingAverage` | ArloVsMocks/Program.cs:74-77 | stars 4 at weight 1.0 and stars 2 at weight 0.33 average to 4.66 / 1.33 |
| `Scenarios.NewRatingCountsInSameRun` | ArloVsMocks/Program.cs:14-16 | a full run on concrete data: the new rating counts toward its critic's disparity in the same run (weight 0.15), and the movie's new average is 4.15 / 1.15 |

## Left out

- `ParseInput` (lines 95-112): argument-count message and `int.Parse`. The model starts from three parsed integers.
- `PrintSummary` (lines 89-93) and the console handling in `Main`: printing `ex.Message`, the `{0:N1}` format and `Console.ReadKey`. These are output only.
- `MovieReviewEntities`, `SaveChanges` and `Dispose`: Entity Framework persistence and the transactional commit. Their code is not part of `ArloVsMocks/Program.cs`. The class's state is what a successful run commits. A failed run commits nothing.
- Unknown movie or critic ids. The source adds a rating that names a missing row. The run then fails later: `r.Movie` or `r.Critic` is null in one of the passes, or the foreign key is rejected at `SaveChanges`. The model fails before the upsert. The observable outcome is the same, an error and nothing committed, but the exception type and text are not modelled.
- When the queries see the new rating. Every view of the table in the model includes the new rating, which is not yet saved. The rating built on line 40 sets only `MovieId` and `CriticId`. The model assumes Entity Framework links this tracked rating into the entities it has loaded. Under that assumption, the rating appears in the navigation collections (`critic.Ratings`, `movie.Ratings`). Its `Movie` reference (read on lines 52-53) and its `Critic` reference (read on line 74) are then non-null. The Entity Framework code is not part of `ArloVsMocks/Program.cs`, so the source text does not settle this. The filter `db.Critics.Where(c => c.Ratings.Count > 0)` on line 49 is a database query, and it does not see the unsaved rating.
- A first-time critic, whose only rating is the new one, is the case the source text leaves open. The line-49 query does not load that critic, so nothing shown guarantees that the new rating's `Critic` reference is set when line 74 reads it. The source may then throw and commit nothing. It may instead weight the movie with the critic's stored weight. It does not reweigh that critic in this run either way. The model reweighs them and always uses the new weight.
- CriticWeights.NewWeights: reweighs a first-time critic in their first run, while the source's line-49 filter skips them (see the previous line). For critics who already had saved ratings, the two agree under the assumption above.
- Program.RunAlwaysSummarises: "the critic holds a policy weight" holds under the model's reading. For a first-time critic, the source text does not settle the outcome (see above).
- Program.MovieReviewDb.ProcessRating: the critic pass is `UpdateCriticRating`, so it has the same first-run difference for a first-time critic.
- IEEE-754 behaviour: rounding of 0.15, 0.33 and the sums, and the summation order of `Sum`. Reals are exact; the order of addition does not matter.
- A stored NaN. The source stores 0.0 / 0.0 = NaN as the average of a movie with no ratings. In a later run, `HasValue` is true for that NaN, so any critic who has since rated that movie gets relative disparity NaN and weight 1.0. The model stores "no average" (`None`) instead, and such ratings are left out of the disparity.
- Iteration order of `db.Critics` and `db.Movies`. The loops take the ids in any order. The results do not depend on the order, because neither pass reads what it writes.
- Object identity of the entities. A rating is a value in a sequence, so updating the stars in place replaces the element. Aliasing through the navigation properties (`Movie`, `Critic`, `Ratings`) is modelled by lookups by id. Only the fields the engine uses are modelled.
