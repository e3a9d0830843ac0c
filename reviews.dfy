/** Reviews: a product's review list and average (components/ReviewModal.tsx:11-14,
    and the shop page's per-product stats, App.tsx:272-277), the home
    page's top reviews (pages/Home.tsx:9) and the review form's submit
    handler (components/ReviewModal.tsx:16-37). */
module Reviews {
  import opened Types
  import opened Seqs
  import opened Storefront

  /** The test `r => r.productId === id`. */
  function ForProduct(id: string): Review -> bool {
    (r: Review) => r.productId == id
  }

  /** The test `r => r.rating >= 4`. */
  function Positive(): Review -> bool {
    (r: Review) => r.rating >= 4
  }

  /** `reviews.filter(r => r.productId === product.id)`. */
  function ProductReviews(reviews: seq<Review>, productId: string): (r: seq<Review>)
    ensures forall x :: x in r <==> x in reviews && x.productId == productId
  {
    Filter(reviews, ForProduct(productId))
  }

  /** A newly added review heads its product's list and leaves every other
      product's list as it was. */
  lemma ProductReviewsAfterAdd(review: Review, reviews: seq<Review>, productId: string)
    ensures ProductReviews([review] + reviews, productId) ==
      if review.productId == productId then [review] + ProductReviews(reviews, productId)
      else ProductReviews(reviews, productId)
  {
    assert ([review] + reviews)[1..] == reviews;
  }

  /** The sum of the ratings; integer addition, so the fold's direction
      does not matter. */
  function RatingSum(reviews: seq<Review>): int {
    if reviews == [] then 0 else reviews[0].rating + RatingSum(reviews[1..])
  }

  lemma {:induction false} RatingSumBounds(reviews: seq<Review>)
    requires forall i :: 0 <= i < |reviews| ==> DocumentedRating(reviews[i].rating)
    ensures |reviews| <= RatingSum(reviews) <= 5 * |reviews|
  {
    if reviews != [] {
      RatingSumBounds(reviews[1..]);
    }
  }

  /** `avgRating` before `toFixed(1)`: 0 when there are no reviews, else the
      mean rating. */
  function AverageRating(reviews: seq<Review>): (avg: real)
    ensures reviews == [] ==> avg == 0.0
    ensures reviews != [] ==> avg * |reviews| as real == RatingSum(reviews) as real
  {
    if reviews == [] then 0.0 else RatingSum(reviews) as real / |reviews| as real
  }

  /** A proof step for AverageInRange, not a property of the storefront: a
      product with a positive factor is non-negative only when its other
      factor is. */
  lemma NonNegativeFactor(x: real, n: real)
    requires n > 0.0 && x * n >= 0.0
    ensures x >= 0.0
  {
  }

  /** With every rating in the documented range 1-5, the average of a
      non-empty list lies in [1, 5]. */
  lemma AverageInRange(reviews: seq<Review>)
    requires reviews != []
    requires forall i :: 0 <= i < |reviews| ==> DocumentedRating(reviews[i].rating)
    ensures 1.0 <= AverageRating(reviews) <= 5.0
  {
    RatingSumBounds(reviews);
    var n := |reviews| as real;
    var avg := AverageRating(reviews);
    var sum := RatingSum(reviews) as real;
    assert avg * n == sum;
    assert n <= sum <= 5.0 * n && n > 0.0;
    NonNegativeFactor(avg - 1.0, n);
    NonNegativeFactor(5.0 - avg, n);
  }

  /** `getProductStats`: the number of reviews of a product and their average. */
  function ProductStats(reviews: seq<Review>, productId: string): (stats: (nat, real))
    ensures stats.0 == |ProductReviews(reviews, productId)|
    ensures stats.0 == 0 <==> forall i :: 0 <= i < |reviews| ==> reviews[i].productId != productId
    ensures stats.0 == 0 ==> stats.1 == 0.0
  {
    var mine := ProductReviews(reviews, productId);
    FilterEmptyIff(reviews, ForProduct(productId));
    (|mine|, AverageRating(mine))
  }

  /** The product-stats average is in [1, 5] when some review exists and all
      ratings are documented ones. */
  lemma ProductStatsInRange(reviews: seq<Review>, productId: string)
    requires forall i :: 0 <= i < |reviews| ==> DocumentedRating(reviews[i].rating)
    requires exists i :: 0 <= i < |reviews| && reviews[i].productId == productId
    ensures 1.0 <= ProductStats(reviews, productId).1 <= 5.0
  {
    var mine := ProductReviews(reviews, productId);
    forall i | 0 <= i < |mine|
      ensures DocumentedRating(mine[i].rating)
    {
      assert mine[i] in mine;
    }
    AverageInRange(mine);
  }

  /** `reviews.filter(r => r.rating >= 4).slice(0, 3)`. */
  function TopReviews(reviews: seq<Review>): (top: seq<Review>)
    ensures |top| <= 3
    ensures forall i :: 0 <= i < |top| ==> top[i].rating >= 4 && top[i] in reviews
    ensures top == [] <==> forall i :: 0 <= i < |reviews| ==> reviews[i].rating < 4
  {
    var positive := Filter(reviews, Positive());
    FilterEmptyIff(reviews, Positive());
    var top := if |positive| <= 3 then positive else positive[..3];
    assert forall i :: 0 <= i < |top| ==> top[i] in positive;
    top
  }

  /** The selection is the first positive reviews in their order: a
      positive review at the head is selected first, a head rated below 4
      changes nothing. Since `addReview` prepends, a new positive review
      always appears on the home page. */
  lemma TopReviewsOfCons(review: Review, reviews: seq<Review>)
    ensures review.rating >= 4 ==>
      TopReviews([review] + reviews) == ([review] + TopReviews(reviews))[..if |TopReviews(reviews)| < 3 then |TopReviews(reviews)| + 1 else 3]
    ensures review.rating < 4 ==> TopReviews([review] + reviews) == TopReviews(reviews)
  {
    assert ([review] + reviews)[1..] == reviews;
    var positive := Filter(reviews, Positive());
    if review.rating >= 4 {
      assert Filter([review] + reviews, Positive()) == [review] + positive;
      if |positive| > 3 {
        assert ([review] + positive)[..3] == ([review] + positive[..3])[..3];
      }
    }
  }

  /** The review list of the first selection runs in the original order: a
      prefix of the reviews gives a prefix of the selection. */
  lemma {:induction false} TopReviewsPrefix(a: seq<Review>, b: seq<Review>)
    ensures |TopReviews(a)| <= |TopReviews(a + b)|
    ensures TopReviews(a + b)[..|TopReviews(a)|] == TopReviews(a)
  {
    FilterAppend(a, b, Positive());
    var pa := Filter(a, Positive());
    var pb := Filter(b, Positive());
    assert Filter(a + b, Positive()) == pa + pb;
    if |pa| > 3 {
      assert (pa + pb)[..3] == pa[..3];
    } else if |pa + pb| > 3 {
      assert (pa + pb)[..3][..|pa|] == pa;
    } else {
      assert (pa + pb)[..|pa|] == pa;
    }
  }

  /** JavaScript's `String.prototype.trim` whitespace: the white-space and
      line-terminator code points of ECMAScript. */
  predicate IsJsSpace(c: char) {
    || c == ' ' || c == '\t' || c == '\n' || c == '\U{B}' || c == '\U{C}' || c == '\r'
    || c == '\U{A0}' || c == '\U{1680}' || ('\U{2000}' <= c <= '\U{200A}')
    || c == '\U{2028}' || c == '\U{2029}' || c == '\U{202F}' || c == '\U{205F}'
    || c == '\U{3000}' || c == '\U{FEFF}'
  }

  /** Leading whitespace removed. */
  function TrimStart(s: string): (r: string)
    ensures |r| <= |s| && r == s[|s| - |r|..]
    ensures r != [] ==> !IsJsSpace(r[0])
    ensures forall i :: 0 <= i < |s| - |r| ==> IsJsSpace(s[i])
  {
    if s == [] || !IsJsSpace(s[0]) then s
    else
      var r := TrimStart(s[1..]);
      assert forall i :: 1 <= i < |s| ==> s[1..][i - 1] == s[i];
      r
  }

  /** Trailing whitespace removed. */
  function TrimEnd(s: string): (r: string)
    ensures |r| <= |s| && r == s[..|r|]
    ensures r != [] ==> !IsJsSpace(r[|r| - 1])
    ensures forall i :: |r| <= i < |s| ==> IsJsSpace(s[i])
  {
    if s == [] || !IsJsSpace(s[|s| - 1]) then s
    else TrimEnd(s[..|s| - 1])
  }

  /** `s.trim()`. */
  function Trim(s: string): string {
    TrimEnd(TrimStart(s))
  }

  /** A comment is refused exactly when every character is whitespace. */
  lemma TrimEmptyIffBlank(s: string)
    ensures Trim(s) == "" <==> forall i :: 0 <= i < |s| ==> IsJsSpace(s[i])
  {
    var t := TrimStart(s);
    if Trim(s) == "" {
      forall i | 0 <= i < |s|
        ensures IsJsSpace(s[i])
      {
        if i >= |s| - |t| {
          assert s[i] == t[i - (|s| - |t|)];
        }
      }
    } else {
      var r := Trim(s);
      assert !IsJsSpace(r[0]);
      assert r[0] == t[0] == s[|s| - |t|];
    }
  }

  /** Why the form refused to submit, or the review it built. */
  datatype Submission =
    | NotSignedIn    // alert "Please login to submit a review"
    | EmptyComment   // alert "Please write a comment"
    | Submitted(review: Review)

  /** The guards of `handleSubmit` and the review it builds: the comment is
      kept as typed, untrimmed. */
  function ReviewSubmission(user: Option<User>, productId: string, rating: int, comment: string,
                            reviewId: string, date: string): (r: Submission)
    ensures r.NotSignedIn? <==> user.None?
    ensures r.EmptyComment? <==> user.Some? && Trim(comment) == ""
    ensures r.Submitted? ==>
      && r.review.productId == productId && r.review.userId == user.value.id
      && r.review.userName == user.value.name && r.review.rating == rating && r.review.comment == comment
  {
    if user.None? then NotSignedIn
    else if Trim(comment) == "" then EmptyComment
    else Submitted(Review(reviewId, productId, user.value.id, user.value.name, rating, comment, date))
  }

  /** `handleSubmit` run against the store: on success the review is added
      and the form resets to 5 stars and an empty comment; a refused
      submission changes nothing and keeps the form. */
  method SubmitReview(store: Store, productId: string, rating: int, comment: string, reviewId: string, date: string)
    returns (outcome: Submission, nextRating: int, nextComment: string)
    modifies store`reviews
    ensures outcome == ReviewSubmission(old(store.user), productId, rating, comment, reviewId, date)
    ensures store.reviews == if outcome.Submitted? then [outcome.review] + old(store.reviews) else old(store.reviews)
    ensures outcome.Submitted? ==> nextRating == 5 && nextComment == ""
    ensures !outcome.Submitted? ==> nextRating == rating && nextComment == comment
  {
    outcome := ReviewSubmission(store.user, productId, rating, comment, reviewId, date);
    if outcome.Submitted? {
      store.AddReview(outcome.review);
      return outcome, 5, "";
    }
    return outcome, rating, comment;
  }
}
