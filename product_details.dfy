/** The product details page: its chart series, star displays, review payload and watchlist flag. */
module ProductDetails {
  import opened Common
  import opened ProductRecords

  /** The default avatar used when the review author has no photo. */
  const DefaultAvatar: string := "https://i.ibb.co/8M0CM5w/default-avatar.png"

  /** One point of the price-comparison chart: the entry's date (shown as a local date) and price. */
  datatype ChartPoint = ChartPoint(date: DateValue, price: string)

  /** The review being written: `userReview`. */
  datatype DraftReview = DraftReview(rating: int, comment: string)

  /** The body of `PATCH /products/:id/review`. */
  datatype ReviewData = ReviewData(rating: int, comment: string, userName: Option<string>,
                                   userEmail: Option<string>, userPhotoURL: string)

  /** A review as stored on the product. */
  datatype Review = Review(rating: int, comment: string, userName: Option<string>, userPhotoURL: Option<string>)

  /** `priceHistory.map(...)` then `reverse()`: one point per entry, newest stored entry first reversed to the right. */
  function ChartSeries(history: seq<PriceRow>): (r: seq<ChartPoint>)
    ensures |r| == |history|
    ensures forall k :: 0 <= k < |history| ==>
      r[k] == ChartPoint(history[|history| - 1 - k].date, history[|history| - 1 - k].price)
  {
    Reverse(seq(|history|, i requires 0 <= i < |history| => ChartPoint(history[i].date, history[i].price)))
  }

  /** Reading the chart from right to left gives the stored history back. */
  lemma ChartSeriesRoundTrip(history: seq<PriceRow>)
    ensures |Reverse(ChartSeries(history))| == |history|
    ensures forall i :: 0 <= i < |history| ==>
      Reverse(ChartSeries(history))[i] == ChartPoint(history[i].date, history[i].price)
  {
    var c := ChartSeries(history);
    forall i | 0 <= i < |history|
      ensures Reverse(c)[i] == ChartPoint(history[i].date, history[i].price)
    {
      assert Reverse(c)[i] == c[|c| - 1 - i];
    }
  }

  /** The five stars shown for a rating: star `s` (1 to 5) is filled when the rating is at least `s`. */
  function Stars(rating: int): (filled: seq<bool>)
    ensures |filled| == 5
    ensures forall i :: 0 <= i < 5 ==> (filled[i] <==> rating >= i + 1)
  {
    seq(5, i requires 0 <= i < 5 => rating >= i + 1)
  }

  /** How many of a row of stars are filled. */
  function CountFilled(stars: seq<bool>): nat
  {
    if stars == [] then 0 else CountFilled(stars[..|stars| - 1]) + (if stars[|stars| - 1] then 1 else 0)
  }

  /** The filled stars are a prefix: a rating of `r` fills `r` stars, clamped to 0 and 5. */
  lemma FilledStarsMatchRating(rating: int)
    ensures CountFilled(Stars(rating)) == if rating < 0 then 0 else if rating > 5 then 5 else rating
  {
    var st := Stars(rating);
    var b := seq(5, i requires 0 <= i < 5 => if st[i] then 1 else 0);
    assert CountFilled(st[..1]) == b[0] by { assert st[..1][..0] == []; }
    assert CountFilled(st[..2]) == b[0] + b[1] by { assert st[..2][..1] == st[..1]; }
    assert CountFilled(st[..3]) == b[0] + b[1] + b[2] by { assert st[..3][..2] == st[..2]; }
    assert CountFilled(st[..4]) == b[0] + b[1] + b[2] + b[3] by { assert st[..4][..3] == st[..3]; }
    assert CountFilled(st) == b[0] + b[1] + b[2] + b[3] + b[4] by { assert st[..4] == st[..|st| - 1]; }
  }

  /** "No reviews yet." is shown when the reviews are missing or empty. */
  predicate NoReviews(reviews: Option<seq<Review>>)
  {
    reviews.None? || |reviews.value| == 0
  }

  /** The avatar shown for a stored review: its photo, or the default avatar when it has none. */
  function ReviewAvatar(review: Review): (avatar: string)
    ensures review.userPhotoURL.None? || review.userPhotoURL == Some("") ==> avatar == DefaultAvatar
    ensures review.userPhotoURL.Some? && review.userPhotoURL.value != "" ==> avatar == review.userPhotoURL.value
    ensures avatar != ""
  {
    OrElse(review.userPhotoURL, DefaultAvatar)
  }

  /** One review card: the author's name, avatar, five stars and comment. */
  datatype ReviewCard = ReviewCard(userName: Option<string>, avatar: string, stars: seq<bool>, comment: string)

  /** The "User Reviews" section: the empty message, or one card per review in stored order. */
  datatype ReviewsView = NoReviewsYet | ReviewCards(cards: seq<ReviewCard>)

  /** What the "User Reviews" section shows for the product's reviews. */
  function ReviewList(reviews: Option<seq<Review>>): (view: ReviewsView)
    ensures view.NoReviewsYet? <==> NoReviews(reviews)
    ensures view.ReviewCards? ==> |view.cards| == |reviews.value| && |view.cards| > 0
    ensures view.ReviewCards? ==> forall i :: 0 <= i < |view.cards| ==>
      var r := reviews.value[i];
      view.cards[i] == ReviewCard(r.userName, ReviewAvatar(r), Stars(r.rating), r.comment)
  {
    if NoReviews(reviews) then NoReviewsYet
    else
      var rs := reviews.value;
      ReviewCards(seq(|rs|, i requires 0 <= i < |rs| =>
        ReviewCard(rs[i].userName, ReviewAvatar(rs[i]), Stars(rs[i].rating), rs[i].comment)))
  }

  /** The watchlist button is offered only to someone other than the product's vendor. */
  function ShowWatchlistButton(vendorEmail: Option<string>, viewerEmail: Option<string>): (shown: bool)
    ensures shown <==> vendorEmail != viewerEmail
  {
    vendorEmail != viewerEmail
  }

  /** `handleReviewSubmit`'s payload; with no signed-in user reading `user.displayName` throws, and the error is reported. */
  function ReviewPayload(draft: DraftReview, user: Option<User>): (r: Option<ReviewData>)
    ensures r.None? <==> user.None?
    ensures r.Some? ==> r.value.rating == draft.rating && r.value.comment == draft.comment
    ensures r.Some? ==> r.value.userName == user.value.displayName && r.value.userEmail == user.value.email
    ensures r.Some? && (user.value.photoURL.None? || user.value.photoURL == Some("")) ==>
      r.value.userPhotoURL == DefaultAvatar
    ensures r.Some? && user.value.photoURL.Some? && user.value.photoURL.value != "" ==>
      r.value.userPhotoURL == user.value.photoURL.value
  {
    if user.None? then None
    else
      var u := user.value;
      Some(ReviewData(draft.rating, draft.comment, u.displayName, u.email, OrElse(u.photoURL, DefaultAvatar)))
  }

  /** A review stored as it was sent shows the avatar that was sent, and the stars of its rating. */
  lemma StoredReviewShowsSentAvatar(draft: DraftReview, user: User)
    ensures var p := ReviewPayload(draft, Some(user)).value;
      var card := ReviewList(Some([Review(p.rating, p.comment, p.userName, Some(p.userPhotoURL))])).cards[0];
      card.avatar == p.userPhotoURL && card.stars == Stars(draft.rating) && card.userName == user.displayName
  {
    var p := ReviewPayload(draft, Some(user)).value;
    assert p.userPhotoURL != "" by {
      assert DefaultAvatar != "";
    }
  }

  /** The page's local state: the watchlist flag and the review being written. */
  class DetailsPage {
    var watchlist: bool
    var userReview: DraftReview

    /** Not on the watchlist, no stars, no comment. */
    constructor()
      ensures !watchlist && userReview == DraftReview(0, "")
      ensures forall i :: 0 <= i < 5 ==> !Stars(userReview.rating)[i]
    {
      watchlist := false;
      userReview := DraftReview(0, "");
    }

    /** `handleWatchlist`: the flag is set once the product has loaded, and nothing clears it. */
    method HandleWatchlist(productLoaded: bool)
      modifies this
      ensures watchlist == (old(watchlist) || productLoaded)
      ensures userReview == old(userReview)
    {
      if productLoaded {
        watchlist := true;
      }
    }

    /** `handleStarRating(star)`: the draft's rating becomes `star`; the comment is kept. */
    method HandleStarRating(star: int)
      modifies this
      ensures userReview == DraftReview(star, old(userReview.comment))
      ensures forall i :: 0 <= i < 5 ==> (Stars(userReview.rating)[i] <==> i + 1 <= star)
      ensures watchlist == old(watchlist)
    {
      userReview := userReview.(rating := star);
    }

    /** The comment box's change handler: the rating is kept. */
    method EditComment(text: string)
      modifies this
      ensures userReview == DraftReview(old(userReview.rating), text)
      ensures watchlist == old(watchlist)
    {
      userReview := userReview.(comment := text);
    }

    /**
     * The watchlist button's click: the button exists only for a viewer who is not the vendor,
     * so the vendor's own product never lands on the watchlist.
     */
    method ClickWatchlistButton(productLoaded: bool, vendorEmail: Option<string>, viewerEmail: Option<string>)
      modifies this
      ensures watchlist == (old(watchlist) || (productLoaded && ShowWatchlistButton(vendorEmail, viewerEmail)))
      ensures vendorEmail == viewerEmail ==> watchlist == old(watchlist)
      ensures userReview == old(userReview)
    {
      if ShowWatchlistButton(vendorEmail, viewerEmail) {
        HandleWatchlist(productLoaded);
      }
    }

    /**
     * "Submit Review": with a signed-in user, the rating and comment last set on the draft, the
     * user's name and email, and the photo or default avatar; nothing without a user. The draft
     * is not cleared.
     */
    method SubmitReview(user: Option<User>) returns (payload: Option<ReviewData>)
      ensures payload.None? <==> user.None?
      ensures payload.Some? ==> payload.value.rating == userReview.rating && payload.value.comment == userReview.comment
      ensures payload.Some? ==> payload.value.userName == user.value.displayName && payload.value.userEmail == user.value.email
      ensures payload.Some? && (user.value.photoURL.None? || user.value.photoURL == Some("")) ==>
        payload.value.userPhotoURL == DefaultAvatar
      ensures payload.Some? && user.value.photoURL.Some? && user.value.photoURL.value != "" ==>
        payload.value.userPhotoURL == user.value.photoURL.value
    {
      payload := ReviewPayload(userReview, user);
    }
  }
}
