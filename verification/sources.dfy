/** The record every platform fetcher returns (backend/services/sources/base.py):
    one normalised `Review`, the `SourceResult` envelope, and the average of
    the star ratings. */
module Sources {
  import opened Wrappers
  import opened Numeric

  /** One normalised review.  `comment` is always a string, possibly empty. */
  datatype Review = Review(
    id: string,
    user: string,
    rating: Option<real>,
    comment: string,
    date: string,
    platform: string,
    likes: Option<int>)

  /** Building a `Review`: `rating` and `likes` may be left out and are then
      `None` (an unknown like count is `None`, not 0). */
  function NewReview(id: string, user: string, comment: string, date: string, platform: string,
                     rating: Option<real> := None, likes: Option<int> := None): (r: Review)
    ensures r.comment == comment && r.rating == rating && r.likes == likes
  {
    Review(id, user, rating, comment, date, platform, likes)
  }

  /** The outcome of one fetch. */
  datatype SourceResult = SourceResult(
    platform: string,
    identifier: string,
    averageRating: real,
    totalReviews: int,
    reviews: seq<Review>,
    error: Option<string>)

  /** Building a `SourceResult`: `error` may be left out and is then `None`. */
  function NewSourceResult(platform: string, identifier: string, averageRating: real,
                           totalReviews: int, reviews: seq<Review>,
                           error: Option<string> := None): (r: SourceResult)
    ensures r.reviews == reviews && r.error == error
  {
    SourceResult(platform, identifier, averageRating, totalReviews, reviews, error)
  }

  /** The fields a fetcher may leave out: an unrated review has no rating, an
      unknown like count is `None` rather than 0, and a result carries no
      error unless one is given. */
  lemma DefaultsAreNone(id: string, user: string, comment: string, date: string, platform: string,
                        identifier: string, averageRating: real, totalReviews: int, reviews: seq<Review>)
    ensures NewReview(id, user, comment, date, platform).rating == None
    ensures NewReview(id, user, comment, date, platform).likes == None
    ensures NewReview(id, user, comment, date, platform).likes != Some(0)
    ensures NewReview(id, user, comment, date, platform).comment == comment
    ensures NewSourceResult(platform, identifier, averageRating, totalReviews, reviews).error == None
  {
  }

  /** A review handed on as a dict, as the analyzer and the store receive it.
      Each key may be missing, hold `None`, or hold a value.  An `id` that is
      not a string is given as its `str()` text. */
  datatype ReviewData = ReviewData(
    id: Field<string>,
    user: Field<string>,
    rating: Field<real>,
    comment: Field<string>,
    date: Field<string>,
    likes: Field<int>)

  function OptionField<T>(o: Option<T>): Field<T> {
    match o
    case Some(v) => Value(v)
    case None => Null
  }

  /** `review.dict()`: every key present, `None` fields as `None` values. */
  function ToData(r: Review): (d: ReviewData)
    ensures d.comment == Value(r.comment)
    ensures d.likes.Absent? == false
    ensures d.id == Value(r.id) && d.user == Value(r.user) && d.date == Value(r.date)
    ensures r.rating.None? <==> d.rating.Null?
    ensures r.rating.Some? ==> d.rating == Value(r.rating.value)
    ensures r.likes.None? <==> d.likes.Null?
    ensures r.likes.Some? ==> d.likes == Value(r.likes.value)
  {
    ReviewData(Value(r.id), Value(r.user), OptionField(r.rating), Value(r.comment),
               Value(r.date), OptionField(r.likes))
  }

  // ---------------------------------------------------------------------------
  // calculate_average_rating
  // ---------------------------------------------------------------------------

  /** `[r.rating for r in reviews if r.rating is not None]`. */
  function Ratings(reviews: seq<Review>): seq<real> {
    if |reviews| == 0 then []
    else
      var rest := Ratings(reviews[1..]);
      match reviews[0].rating
      case Some(x) => [x] + rest
      case None => rest
  }

  /** `calculate_average_rating`: 0.0 when no review carries a rating, else
      the mean rating rounded to two places. */
  function AverageRating(reviews: seq<Review>): (r: real)
    ensures |Ratings(reviews)| == 0 ==> r == 0.0
    ensures |Ratings(reviews)| > 0 ==>
              Min(Ratings(reviews)) - HalfUnit(2) <= r <= Max(Ratings(reviews)) + HalfUnit(2)
  {
    var ratings := Ratings(reviews);
    if |ratings| == 0 then 0.0
    else
      MeanWithinRange(ratings);
      Round(Mean(ratings), 2)
  }

  lemma {:induction false} RatingsConcat(a: seq<Review>, b: seq<Review>)
    ensures Ratings(a + b) == Ratings(a) + Ratings(b)
  {
    if |a| > 0 {
      assert (a + b)[1..] == a[1..] + b;
      RatingsConcat(a[1..], b);
    } else {
      assert a + b == b;
    }
  }

  /** A review without a rating adds nothing to the ratings; one with a rating,
      even 0.0, adds exactly that rating. */
  lemma RatingsOfInserted(a: seq<Review>, x: Review, b: seq<Review>)
    ensures x.rating.None? ==> Ratings(a + [x] + b) == Ratings(a + b)
    ensures x.rating.Some? ==> Ratings(a + [x] + b) == Ratings(a) + [x.rating.value] + Ratings(b)
  {
    RatingsConcat(a + [x], b);
    RatingsConcat(a, [x]);
    RatingsConcat(a, b);
    assert Ratings([x]) == (if x.rating.Some? then [x.rating.value] else []) by {
      assert [x][1..] == [];
    }
  }

  /** Adding or removing an unrated review leaves the average unchanged. */
  lemma AverageIgnoresUnrated(a: seq<Review>, x: Review, b: seq<Review>)
    requires x.rating.None?
    ensures AverageRating(a + [x] + b) == AverageRating(a + b)
  {
    RatingsOfInserted(a, x, b);
  }

  /** A rating of 0.0 is a rating: it joins both the sum and the count. */
  lemma ZeroRatingCounts(a: seq<Review>, x: Review, b: seq<Review>)
    requires x.rating == Some(0.0)
    ensures |Ratings(a + [x] + b)| == |Ratings(a + b)| + 1
    ensures Sum(Ratings(a + [x] + b)) == Sum(Ratings(a + b))
  {
    RatingsOfInserted(a, x, b);
    RatingsConcat(a, b);
    SumConcat(Ratings(a) + [0.0], Ratings(b));
    SumConcat(Ratings(a), [0.0]);
    SumConcat(Ratings(a), Ratings(b));
    assert Sum([0.0]) == 0.0 + Sum([]);
  }

  lemma {:induction false} RatingsPermutation(a: seq<Review>, b: seq<Review>)
    requires multiset(a) == multiset(b)
    ensures multiset(Ratings(a)) == multiset(Ratings(b))
    decreases |a|
  {
    if |a| == 0 {
      assert |b| == |multiset(b)| == 0;
    } else {
      var i := PermutationStep(a, b);
      var rest := b[..i] + b[i + 1..];
      RatingsPermutation(a[1..], rest);
      RatingsOfInserted(b[..i], b[i], b[i + 1..]);
      assert b == b[..i] + [b[i]] + b[i + 1..];
      RatingsConcat(b[..i], b[i + 1..]);
      RatingsOfInserted([], a[0], a[1..]);
      assert [] + [a[0]] + a[1..] == a;
      assert [] + a[1..] == a[1..];
    }
  }

  /** The average does not depend on the order of the reviews. */
  lemma AverageOrderInvariant(a: seq<Review>, b: seq<Review>)
    requires multiset(a) == multiset(b)
    ensures AverageRating(a) == AverageRating(b)
  {
    RatingsPermutation(a, b);
    var ra, rb := Ratings(a), Ratings(b);
    assert |ra| == |multiset(ra)| == |multiset(rb)| == |rb|;
    if |ra| > 0 {
      MeanPermutation(ra, rb);
    }
  }

  /** Before rounding, the average lies between the lowest and highest rating,
      and rounding moves it by at most half a cent. */
  lemma AverageIsRoundedMean(reviews: seq<Review>)
    requires |Ratings(reviews)| > 0
    ensures var m := Mean(Ratings(reviews));
            && Min(Ratings(reviews)) <= m <= Max(Ratings(reviews))
            && AverageRating(reviews) == Round(m, 2)
            && -0.005 <= AverageRating(reviews) - m <= 0.005
  {
    MeanWithinRange(Ratings(reviews));
    assert HalfUnit(2) == 0.005;
  }
}
