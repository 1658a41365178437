/** The home page's "Latest Market Prices" section: which products are shown and what each card derives. */
module ProductSection {
  import opened Common
  import opened ProductRecords

  /** A product as the section reads it: its date, the ratings of its reviews and its price history. */
  datatype Listing = Listing(id: string, date: int, ratings: Option<seq<int>>, priceHistory: Option<seq<PriceRow>>)

  /** Integer division truncating toward zero, as moment's whole-unit `diff` rounds. */
  function TruncDiv(a: int, b: int): (q: int)
    requires b > 0
    ensures a >= 0 ==> q * b <= a < q * b + b
    ensures a < 0 ==> q * b - b < a <= q * b
    ensures a < 0 ==> q <= 0
  {
    if a >= 0 then a / b else -((-a) / b)
  }

  /** `moment().diff(moment(date), "days")`: whole days from `date` to `now`, truncated toward zero. */
  function DaysBetween(now: int, date: int): int
  {
    TruncDiv(now - date, DayMs)
  }

  /** `isRecent(date)`: at most three whole days old, that is, less than four days of milliseconds. */
  function IsRecent(now: int, date: int): (recent: bool)
    ensures recent <==> now - date < 4 * DayMs
  {
    FourDayWindow(now, date);
    DaysBetween(now, date) <= 3
  }

  /** At most three whole days, truncated toward zero, is less than four days of milliseconds. */
  lemma FourDayWindow(now: int, date: int)
    ensures DaysBetween(now, date) <= 3 <==> now - date < 4 * DayMs
  {
    var q := DaysBetween(now, date);
    if now - date >= 0 {
      if q <= 3 {
        assert q * DayMs <= 3 * DayMs;
      } else {
        assert q * DayMs >= 4 * DayMs;
      }
    }
  }

  /** Future-dated products, and products up to three days and 23:59:59.999 old, count as recent. */
  lemma FutureAndFreshAreRecent(now: int, date: int)
    ensures date >= now ==> IsRecent(now, date)
    ensures now - date == 4 * DayMs - 1 ==> IsRecent(now, date)
    ensures now - date == 4 * DayMs ==> !IsRecent(now, date)
  {
  }

  /** `products.filter((product) => isRecent(product.date))`. */
  function RecentProducts(products: seq<Listing>, now: int): (r: seq<Listing>)
    ensures |r| <= |products|
    decreases |products|
  {
    if products == [] then []
    else
      var n := |products| - 1;
      var front := RecentProducts(products[..n], now);
      if IsRecent(now, products[n].date) then front + [products[n]] else front
  }

  /** Exactly the recent products are shown: none is dropped and no stale one slips through. */
  lemma {:induction false} RecentProductsAreTheRecentOnes(products: seq<Listing>, now: int)
    ensures forall p :: p in RecentProducts(products, now) <==> p in products && IsRecent(now, p.date)
    decreases |products|
  {
    if products != [] {
      var n := |products| - 1;
      RecentProductsAreTheRecentOnes(products[..n], now);
      assert products == products[..n] + [products[n]];
    }
  }

  /** Filtering a list in two parts filters each part in place, so the shown products keep their order. */
  lemma {:induction false} RecentProductsKeepsOrder(a: seq<Listing>, b: seq<Listing>, now: int)
    ensures RecentProducts(a + b, now) == RecentProducts(a, now) + RecentProducts(b, now)
    decreases |b|
  {
    if b == [] {
      assert a + b == a;
    } else {
      var n := |b| - 1;
      var ab := a + b;
      assert ab[..|ab| - 1] == a + b[..n] && ab[|ab| - 1] == b[n];
      RecentProductsKeepsOrder(a, b[..n], now);
      assert b[..|b| - 1] == b[..n];
    }
  }

  /** The sum the `reduce` call computes. */
  function Sum(ratings: seq<int>): int
  {
    if ratings == [] then 0 else Sum(ratings[..|ratings| - 1]) + ratings[|ratings| - 1]
  }

  /** `getAverageRating(reviews)`: 0 with no reviews, else the mean rating (before `toFixed(1)`). */
  function AverageRating(ratings: Option<seq<int>>): (avg: real)
    ensures ratings.None? || ratings.value == [] ==> avg == 0.0
    ensures ratings.Some? && ratings.value != [] ==> avg * (|ratings.value| as real) == Sum(ratings.value) as real
  {
    if ratings.None? || ratings.value == [] then 0.0
    else (Sum(ratings.value) as real) / (|ratings.value| as real)
  }

  /** The sum lies between the count times the smallest and the count times the largest rating. */
  lemma {:induction false} SumBounds(ratings: seq<int>, lo: int, hi: int)
    requires forall i :: 0 <= i < |ratings| ==> lo <= ratings[i] <= hi
    ensures |ratings| * lo <= Sum(ratings) <= |ratings| * hi
    decreases |ratings|
  {
    if ratings != [] {
      var init := ratings[..|ratings| - 1];
      SumBounds(init, lo, hi);
      BoundsGrowByOne(|init|, Sum(init), ratings[|ratings| - 1], lo, hi);
    }
  }

  /** One more rating between the bounds moves both count-times-bound limits by one bound. */
  lemma BoundsGrowByOne(count: int, sum: int, rating: int, lo: int, hi: int)
    requires count * lo <= sum <= count * hi
    requires lo <= rating <= hi
    ensures (count + 1) * lo <= sum + rating <= (count + 1) * hi
  {
    assert (count + 1) * lo == count * lo + lo;
    assert (count + 1) * hi == count * hi + hi;
  }

  /** The average of ratings between `lo` and `hi` (1 and 5 for star ratings) lies between them. */
  lemma AverageWithinBounds(ratings: seq<int>, lo: int, hi: int)
    requires ratings != []
    requires forall i :: 0 <= i < |ratings| ==> lo <= ratings[i] <= hi
    ensures lo as real <= AverageRating(Some(ratings)) <= hi as real
  {
    SumBounds(ratings, lo, hi);
    MeanBetween(|ratings|, Sum(ratings), AverageRating(Some(ratings)), lo, hi);
  }

  /** A mean of a positive count of values whose sum lies between count times `lo` and count times `hi` lies between `lo` and `hi`. */
  lemma MeanBetween(count: int, sum: int, mean: real, lo: int, hi: int)
    requires count > 0
    requires count * lo <= sum <= count * hi
    requires mean * (count as real) == sum as real
    ensures lo as real <= mean <= hi as real
  {
    assert (count * lo) as real == (lo as real) * (count as real);
    assert (count * hi) as real == (hi as real) * (count as real);
  }

  /** `priceHistory?.slice(-3).reverse()`: the last three entries, newest first (nothing when there is no history). */
  function LastThreeNewestFirst(history: Option<seq<PriceRow>>): (r: seq<PriceRow>)
    ensures history.None? ==> r == []
    ensures history.Some? ==> |r| == (if |history.value| < 3 then |history.value| else 3)
    ensures history.Some? ==> forall k :: 0 <= k < |r| ==> r[k] == history.value[|history.value| - 1 - k]
  {
    if history.None? then []
    else
      var h := history.value;
      Reverse(h[(if |h| < 3 then 0 else |h| - 3)..])
  }
}
