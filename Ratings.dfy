/**
 * The ratings table and the rating upsert (`CreateOrUpdateNewRating` in
 * ArloVsMocks/Program.cs). A rating is one critic's star score for one movie;
 * the table is the ordered collection `db.Ratings`, each (movie, critic)
 * pair occurring at most once.
 */
module Ratings {

  /** The three fields the engine reads of a rating. Stars are a C# `int`. */
  datatype Rating = Rating(movieId: int, criticId: int, stars: int)

  /** The lookup condition of line 37: same movie and same critic. */
  predicate Matches(r: Rating, movieId: int, criticId: int) {
    r.movieId == movieId && r.criticId == criticId
  }

  /** How many ratings of `rs` belong to the pair (movieId, criticId). */
  function CountFor(rs: seq<Rating>, movieId: int, criticId: int): nat {
    if rs == [] then 0
    else (if Matches(rs[0], movieId, criticId) then 1 else 0) + CountFor(rs[1..], movieId, criticId)
  }

  /** At most one rating per (movie, critic) pair. */
  predicate PairsUnique(rs: seq<Rating>) {
    forall i, j :: 0 <= i < j < |rs| ==> !Matches(rs[j], rs[i].movieId, rs[i].criticId)
  }

  /** Referential integrity: every rating names an existing movie and an existing critic. */
  predicate RatingsRefer(rs: seq<Rating>, movies: set<int>, critics: set<int>) {
    forall i :: 0 <= i < |rs| ==> rs[i].movieId in movies && rs[i].criticId in critics
  }

  /** `critic.Ratings`: the ratings of `rs` given by one critic, in table order. */
  function ByCritic(rs: seq<Rating>, criticId: int): (r: seq<Rating>)
    ensures forall x :: x in r ==> x in rs && x.criticId == criticId
  {
    if rs == [] then []
    else (if rs[0].criticId == criticId then [rs[0]] else []) + ByCritic(rs[1..], criticId)
  }

  /** No rating of the critic is dropped by `ByCritic`. */
  lemma {:induction false} InByCritic(rs: seq<Rating>, x: Rating)
    requires x in rs
    ensures x in ByCritic(rs, x.criticId)
  {
    if x != rs[0] {
      InByCritic(rs[1..], x);
    }
  }

  /** `movie.Ratings`: the ratings of `rs` received by one movie, in table order. */
  function ByMovie(rs: seq<Rating>, movieId: int): (r: seq<Rating>)
    ensures forall x :: x in r ==> x in rs && x.movieId == movieId
  {
    if rs == [] then []
    else (if rs[0].movieId == movieId then [rs[0]] else []) + ByMovie(rs[1..], movieId)
  }

  /** No rating of the movie is dropped by `ByMovie`. */
  lemma {:induction false} InByMovie(rs: seq<Rating>, x: Rating)
    requires x in rs
    ensures x in ByMovie(rs, x.movieId)
  {
    if x != rs[0] {
      InByMovie(rs[1..], x);
    }
  }

  lemma {:induction false} CountZeroIff(rs: seq<Rating>, movieId: int, criticId: int)
    ensures CountFor(rs, movieId, criticId) == 0 <==>
            forall i :: 0 <= i < |rs| ==> !Matches(rs[i], movieId, criticId)
  {
    if rs != [] {
      CountZeroIff(rs[1..], movieId, criticId);
      assert forall i :: 1 <= i < |rs| ==> rs[i] == rs[1..][i - 1];
    }
  }

  /** With unique pairs, `SingleOrDefault` at line 37 never meets two matches. */
  lemma {:induction false} UniqueCountAtMostOne(rs: seq<Rating>, movieId: int, criticId: int)
    requires PairsUnique(rs)
    ensures CountFor(rs, movieId, criticId) <= 1
  {
    if rs != [] {
      var tail := rs[1..];
      assert PairsUnique(tail) by {
        forall i, j | 0 <= i < j < |tail|
          ensures !Matches(tail[j], tail[i].movieId, tail[i].criticId)
        {
          assert tail[i] == rs[i + 1] && tail[j] == rs[j + 1];
        }
      }
      UniqueCountAtMostOne(tail, movieId, criticId);
      if Matches(rs[0], movieId, criticId) {
        assert forall i :: 0 <= i < |tail| ==> tail[i] == rs[i + 1];
        CountZeroIff(tail, movieId, criticId);
      }
    }
  }

  /**
   * The rating table after `CreateOrUpdateNewRating(movieId, criticId, stars)`:
   * the rating of the pair gets the new stars in place, or a new rating for the
   * pair is appended when there is none. More than one rating for the pair
   * makes `SingleOrDefault` throw, so that case is excluded.
   */
  function UpsertRating(rs: seq<Rating>, movieId: int, criticId: int, stars: int): (r: seq<Rating>)
    requires CountFor(rs, movieId, criticId) <= 1
    ensures CountFor(r, movieId, criticId) == 1
    ensures forall i :: 0 <= i < |r| && Matches(r[i], movieId, criticId) ==> r[i].stars == stars
    ensures CountFor(rs, movieId, criticId) == 0 ==> r == rs + [Rating(movieId, criticId, stars)]
    ensures CountFor(rs, movieId, criticId) == 1 ==> |r| == |rs|
    ensures forall i :: 0 <= i < |rs| ==>
              r[i] == if Matches(rs[i], movieId, criticId) then rs[i].(stars := stars) else rs[i]
  {
    if rs == [] then
      [Rating(movieId, criticId, stars)]
    else if Matches(rs[0], movieId, criticId) then
      var r := [rs[0].(stars := stars)] + rs[1..];
      CountZeroIff(rs[1..], movieId, criticId);
      assert r[1..] == rs[1..];
      assert forall i :: 1 <= i < |rs| ==> rs[i] == rs[1..][i - 1];
      r
    else
      var rest := UpsertRating(rs[1..], movieId, criticId, stars);
      var r := [rs[0]] + rest;
      assert r[1..] == rest;
      assert forall i :: 1 <= i < |rs| ==> rs[i] == rs[1..][i - 1] && r[i] == rest[i - 1];
      r
  }

  /** Where the pair already has the rating at index `i`, the upsert sets its stars there. */
  lemma UpsertAtIndex(rs: seq<Rating>, movieId: int, criticId: int, stars: int, i: nat)
    requires CountFor(rs, movieId, criticId) <= 1
    requires i < |rs| && Matches(rs[i], movieId, criticId)
    ensures UpsertRating(rs, movieId, criticId, stars) == rs[i := rs[i].(stars := stars)]
  {
    CountZeroIff(rs, movieId, criticId);
    var r := UpsertRating(rs, movieId, criticId, stars);
    forall k | 0 <= k < |rs| ensures r[k] == rs[i := rs[i].(stars := stars)][k] {
      if k != i {
        assert !Matches(rs[k], movieId, criticId) by {
          if Matches(rs[k], movieId, criticId) {
            TwoMatchesCountTwo(rs, movieId, criticId, if k < i then k else i, if k < i then i else k);
          }
        }
      }
    }
  }

  /** Two distinct matching indices make the count at least two. */
  lemma {:induction false} TwoMatchesCountTwo(rs: seq<Rating>, movieId: int, criticId: int, i: nat, j: nat)
    requires i < j < |rs|
    requires Matches(rs[i], movieId, criticId) && Matches(rs[j], movieId, criticId)
    ensures CountFor(rs, movieId, criticId) >= 2
  {
    var tail := rs[1..];
    if i == 0 {
      assert tail[j - 1] == rs[j];
      CountZeroIff(tail, movieId, criticId);
    } else {
      assert tail[i - 1] == rs[i] && tail[j - 1] == rs[j];
      TwoMatchesCountTwo(tail, movieId, criticId, i - 1, j - 1);
    }
  }

  /** The upsert keeps at most one rating per pair and references only known ids. */
  lemma UpsertKeepsTableValid(rs: seq<Rating>, movies: set<int>, critics: set<int>,
                               movieId: int, criticId: int, stars: int)
    requires PairsUnique(rs) && RatingsRefer(rs, movies, critics)
    requires movieId in movies && criticId in critics
    ensures CountFor(rs, movieId, criticId) <= 1
    ensures PairsUnique(UpsertRating(rs, movieId, criticId, stars))
    ensures RatingsRefer(UpsertRating(rs, movieId, criticId, stars), movies, critics)
  {
    UniqueCountAtMostOne(rs, movieId, criticId);
    CountZeroIff(rs, movieId, criticId);
    var r := UpsertRating(rs, movieId, criticId, stars);
    assert forall k :: 0 <= k < |rs| ==>
      r[k].movieId == rs[k].movieId && r[k].criticId == rs[k].criticId;
  }

  /**
   * Upserting the same pair twice leaves the table as a single upsert of the
   * later stars would: one rating for the pair, carrying the latest stars.
   */
  lemma {:induction false} UpsertTwice(rs: seq<Rating>, movieId: int, criticId: int, first: int, second: int)
    requires CountFor(rs, movieId, criticId) <= 1
    ensures UpsertRating(UpsertRating(rs, movieId, criticId, first), movieId, criticId, second)
         == UpsertRating(rs, movieId, criticId, second)
  {
    if rs != [] && !Matches(rs[0], movieId, criticId) {
      UpsertTwice(rs[1..], movieId, criticId, first, second);
      var once := UpsertRating(rs, movieId, criticId, first);
      assert once == [rs[0]] + UpsertRating(rs[1..], movieId, criticId, first);
      assert once[1..] == UpsertRating(rs[1..], movieId, criticId, first);
    }
  }
}
