/** Worked examples of one run, computed from the model's definitions. */
module Scenarios {
  import opened Wrappers
  import opened Ratings
  import opened CriticWeights
  import opened MovieAverages

  /** Stars 4 at weight 1.0 and stars 2 at weight 0.33 average to 4.66 / 1.33, about 3.5. */
  lemma TwoRatingAverage()
    ensures WeightedAverage([Rating(1, 10, 4), Rating(1, 20, 2)], map[10 := 1.0, 20 := 0.33])
         == Some(4.66 / 1.33)
  {
    var rs := [Rating(1, 10, 4), Rating(1, 20, 2)];
    var ws := map[10 := 1.0, 20 := 0.33];
    assert WeightTotal(rs, ws) == 1.33 by {
      assert rs[1..] == [Rating(1, 20, 2)] && rs[1..][1..] == [];
    }
    assert RatingTotal(rs, ws) == 4.66 by {
      assert rs[1..] == [Rating(1, 20, 2)] && rs[1..][1..] == [];
    }
  }

  /*
   * Critic 10 rated movie 1 five stars while its average was 3.0; movie 2's
   * only rating is four stars from critic 20, average 4.0. Critic 10 now rates
   * movie 2 one star.
   */
  const Before: seq<Rating> := [Rating(1, 10, 5), Rating(2, 20, 4)]
  const After: seq<Rating> := [Rating(1, 10, 5), Rating(2, 20, 4), Rating(2, 10, 1)]
  const AveragesBefore: map<int, Option<real>> := map[1 := Some(3.0), 2 := Some(4.0)]
  const WeightsBefore: map<int, real> := map[10 := 1.0, 20 := 1.0]
  const WeightsAfter: map<int, real> := map[10 := 0.15, 20 := 1.0]
  const AveragesAfter: map<int, Option<real>> := map[1 := Some(5.0), 2 := Some(4.15 / 1.15)]

  /**
   * The new rating is one of critic 10's ratings in the same run, so their
   * disparity is (2 + 3) / 2 = 2.5 and their weight 0.15; critic 20 matches
   * movie 2's average and keeps 1.0. Movie 2 then averages
   * (4 * 1.0 + 1 * 0.15) / 1.15, about 3.6.
   */
  lemma NewRatingCountsInSameRun()
    ensures CountFor(Before, 2, 10) == 0
    ensures UpsertRating(Before, 2, 10, 1) == After
    ensures NewWeights(After, AveragesBefore, WeightsBefore) == WeightsAfter
    ensures RatersKnown(After, WeightsAfter)
    ensures NewAverages(After, WeightsAfter, AveragesBefore) == AveragesAfter
  {
    ScenarioUpsert();
    ScenarioWeights();
    ScenarioAverages();
  }

  lemma ScenarioUpsert()
    ensures CountFor(Before, 2, 10) == 0
    ensures UpsertRating(Before, 2, 10, 1) == After
  {
    assert Before[1..] == [Rating(2, 20, 4)] && Before[1..][1..] == [];
  }

  lemma AfterByCritic()
    ensures ByCritic(After, 10) == [Rating(1, 10, 5), Rating(2, 10, 1)]
    ensures ByCritic(After, 20) == [Rating(2, 20, 4)]
  {
    assert After[1..] == [Rating(2, 20, 4), Rating(2, 10, 1)];
    assert After[1..][1..] == [Rating(2, 10, 1)] && After[1..][1..][1..] == [];
  }

  lemma Critic10Weight()
    ensures CriticWeight([Rating(1, 10, 5), Rating(2, 10, 1)], AveragesBefore) == 0.15
  {
    var by10 := [Rating(1, 10, 5), Rating(2, 10, 1)];
    assert by10[1..] == [Rating(2, 10, 1)] && by10[1..][1..] == [];
    assert WithAverages(by10, AveragesBefore) == by10;
    assert TotalDisparity(by10, AveragesBefore) == 5.0;
  }

  lemma Critic20Weight()
    ensures CriticWeight([Rating(2, 20, 4)], AveragesBefore) == 1.0
  {
    var by20 := [Rating(2, 20, 4)];
    assert by20[1..] == [];
    assert WithAverages(by20, AveragesBefore) == by20;
    assert TotalDisparity(by20, AveragesBefore) == 0.0;
  }

  lemma ScenarioWeights()
    ensures NewWeights(After, AveragesBefore, WeightsBefore) == WeightsAfter
  {
    Critic10NewWeight();
    Critic20NewWeight();
    var nw := NewWeights(After, AveragesBefore, WeightsBefore);
    TwoKeyMap(nw, 10, 20, 0.15, 1.0);
  }

  lemma Critic10NewWeight()
    ensures NewWeights(After, AveragesBefore, WeightsBefore).Keys == {10, 20}
    ensures NewWeights(After, AveragesBefore, WeightsBefore)[10] == 0.15
  {
    AfterByCritic();
    Critic10Weight();
  }

  lemma Critic20NewWeight()
    ensures NewWeights(After, AveragesBefore, WeightsBefore).Keys == {10, 20}
    ensures NewWeights(After, AveragesBefore, WeightsBefore)[20] == 1.0
  {
    AfterByCritic();
    Critic20Weight();
  }

  lemma AfterByMovie()
    ensures ByMovie(After, 1) == [Rating(1, 10, 5)]
    ensures ByMovie(After, 2) == [Rating(2, 20, 4), Rating(2, 10, 1)]
  {
    assert After[1..] == [Rating(2, 20, 4), Rating(2, 10, 1)];
    assert After[1..][1..] == [Rating(2, 10, 1)] && After[1..][1..][1..] == [];
  }

  lemma Movie1Average()
    ensures WeightedAverage([Rating(1, 10, 5)], WeightsAfter) == Some(5.0)
  {
    var of1 := [Rating(1, 10, 5)];
    assert of1[1..] == [];
    assert WeightTotal(of1, WeightsAfter) == 0.15 && RatingTotal(of1, WeightsAfter) == 0.75;
  }

  lemma Movie2Average()
    ensures WeightedAverage([Rating(2, 20, 4), Rating(2, 10, 1)], WeightsAfter) == Some(4.15 / 1.15)
  {
    var of2 := [Rating(2, 20, 4), Rating(2, 10, 1)];
    assert of2[1..] == [Rating(2, 10, 1)] && of2[1..][1..] == [];
    assert WeightTotal(of2, WeightsAfter) == 1.15 && RatingTotal(of2, WeightsAfter) == 4.15;
  }

  lemma ScenarioAverages()
    ensures RatersKnown(After, WeightsAfter)
    ensures NewAverages(After, WeightsAfter, AveragesBefore) == AveragesAfter
  {
    AfterRatersKnown();
    Movie1NewAverage();
    Movie2NewAverage();
    var na := NewAverages(After, WeightsAfter, AveragesBefore);
    assert na.Keys == {1, 2};
    TwoKeyMap(na, 1, 2, Some(5.0), Some(4.15 / 1.15));
  }

  lemma AfterRatersKnown()
    ensures RatersKnown(After, WeightsAfter)
  {
    assert forall x :: x in After ==> x.criticId == 10 || x.criticId == 20;
  }

  lemma Movie1NewAverage()
    requires RatersKnown(After, WeightsAfter)
    ensures NewAverages(After, WeightsAfter, AveragesBefore)[1] == Some(5.0)
  {
    AfterByMovie();
    Movie1Average();
  }

  lemma Movie2NewAverage()
    requires RatersKnown(After, WeightsAfter)
    ensures NewAverages(After, WeightsAfter, AveragesBefore)[2] == Some(4.15 / 1.15)
  {
    AfterByMovie();
    Movie2Average();
  }

  lemma TwoKeyMap<V>(m: map<int, V>, a: int, b: int, va: V, vb: V)
    requires m.Keys == {a, b} && m[a] == va && m[b] == vb
    ensures m == map[a := va, b := vb]
  {
  }
}
