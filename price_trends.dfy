/**
 * The seven-day price trend of one tracked product: sort its price history by date (in place,
 * as `Array.prototype.sort` does), turn it into chart points with whole-number prices, take the
 * latest price, find the newest point dated on or before "last date minus seven days" with a
 * backward scan, and report the percent change from that reference price.
 */
module PriceTrends {
  import opened Common

  /** One stored observation: `date` is an instant in milliseconds, `price` the stored decimal. */
  datatype PriceEntry = PriceEntry(date: int, price: real)

  /** One point of the chart series: the whole-number price and the raw instant. */
  datatype ChartPoint = ChartPoint(price: int, rawDate: int)

  /** What the page shows: latest price, reference price, percent change and the up/down flag. */
  datatype Trend = Trend(latestPrice: int, referencePrice: int, percent: real, isPositive: bool)

  const SevenDays: int := 7 * DayMs

  /** `parseInt` of a numeric price: truncation toward zero. */
  function ParseInt(x: real): (n: int)
    ensures 0.0 <= x ==> n as real <= x < n as real + 1.0
    ensures x < 0.0 ==> n as real - 1.0 < x <= n as real
  {
    if x >= 0.0 then x.Floor else -((-x).Floor)
  }

  // ---------------------------------------------------------------------------------------------
  // Sorting by date

  ghost predicate SortedByDate(s: seq<PriceEntry>)
  {
    forall i, j :: 0 <= i < j < |s| ==> s[i].date <= s[j].date
  }

  /** Entries that share a date are the same entry (no two different observations on one instant). */
  ghost predicate DatesDetermineEntries(s: seq<PriceEntry>)
  {
    forall i, j :: 0 <= i < |s| && 0 <= j < |s| && s[i].date == s[j].date ==> s[i] == s[j]
  }

  /**
   * Stable insertion of `e` after every entry of `s` dated on or before it: the step of an
   * insertion sort that shifts later-dated entries one place to the right.
   */
  function Insert(s: seq<PriceEntry>, e: PriceEntry): (r: seq<PriceEntry>)
    ensures |r| == |s| + 1
  {
    if s == [] || s[|s| - 1].date <= e.date then s + [e]
    else Insert(s[..|s| - 1], e) + [s[|s| - 1]]
  }

  /**
   * The order `priceHistory.sort((a, b) => new Date(a.date) - new Date(b.date))` produces:
   * ascending by date, and, the sort being stable, entries with equal dates keep their order.
   */
  function SortByDate(s: seq<PriceEntry>): (r: seq<PriceEntry>)
    ensures |r| == |s|
  {
    if s == [] then [] else Insert(SortByDate(s[..|s| - 1]), s[|s| - 1])
  }

  /** Inserting adds exactly the one entry. */
  lemma {:induction false} InsertPermutes(s: seq<PriceEntry>, e: PriceEntry)
    ensures multiset(Insert(s, e)) == multiset(s) + multiset{e}
  {
    if s != [] && s[|s| - 1].date > e.date {
      var init := s[..|s| - 1];
      assert s == init + [s[|s| - 1]];
      InsertPermutes(init, e);
    }
  }

  /** Inserting into a date-sorted history keeps it date-sorted. */
  lemma {:induction false} InsertKeepsSorted(s: seq<PriceEntry>, e: PriceEntry)
    requires SortedByDate(s)
    ensures SortedByDate(Insert(s, e))
  {
    if s == [] || s[|s| - 1].date <= e.date {
      AppendLatestKeepsSorted(s, e);
    } else {
      var init, last := s[..|s| - 1], s[|s| - 1];
      var front := Insert(init, e);
      InsertKeepsSorted(init, e);
      InsertPermutes(init, e);
      forall i | 0 <= i < |front| ensures front[i].date <= last.date {
        var x := front[i];
        assert x in multiset(front);
        if x != e {
          assert x in multiset(init);
          var k :| 0 <= k < |init| && init[k] == x;
          assert s[k] == x;
        }
      }
      AppendLatestKeepsSorted(front, last);
    }
  }

  /** Appending an entry dated no earlier than every entry keeps a history date-sorted. */
  lemma AppendLatestKeepsSorted(s: seq<PriceEntry>, x: PriceEntry)
    requires SortedByDate(s)
    requires forall i :: 0 <= i < |s| ==> s[i].date <= x.date
    ensures SortedByDate(s + [x])
  {
  }


  /** The sorted history is in ascending date order and holds exactly the stored entries. */
  lemma {:induction false} SortByDateSortsAndPermutes(s: seq<PriceEntry>)
    ensures SortedByDate(SortByDate(s))
    ensures multiset(SortByDate(s)) == multiset(s)
  {
    if s != [] {
      var init := s[..|s| - 1];
      assert s == init + [s[|s| - 1]];
      SortByDateSortsAndPermutes(init);
      InsertKeepsSorted(SortByDate(init), s[|s| - 1]);
      InsertPermutes(SortByDate(init), s[|s| - 1]);
    }
  }

  /** Sorting an already sorted history changes nothing, so sorting the cached history again on every render is harmless. */
  lemma {:induction false} SortSortedIsIdentity(s: seq<PriceEntry>)
    requires SortedByDate(s)
    ensures SortByDate(s) == s
  {
    if s != [] {
      var init := s[..|s| - 1];
      assert SortedByDate(init);
      SortSortedIsIdentity(init);
      assert s == init + [s[|s| - 1]];
    }
  }

  /** Two date-sorted arrangements of the same entries are equal when equal dates mean equal entries. */
  lemma {:induction false} SortedPermutationUnique(a: seq<PriceEntry>, b: seq<PriceEntry>)
    requires SortedByDate(a) && SortedByDate(b)
    requires multiset(a) == multiset(b)
    requires DatesDetermineEntries(a)
    ensures a == b
    decreases |a|
  {
    LastsAgree(a, b);
    if a != [] {
      var n := |a| - 1;
      var a', b' := a[..n], b[..n];
      assert SortedByDate(a') && SortedByDate(b') && DatesDetermineEntries(a') by {
        DropLast(a);
        DropLast(b);
      }
      assert multiset(a') == multiset(b') by {
        DropLast(a);
        DropLast(b);
      }
      SortedPermutationUnique(a', b');
      SameInitAndLast(a, b);
    }
  }

  /** Sequences that agree on all but the last position, and on the last, are equal. */
  lemma SameInitAndLast(a: seq<PriceEntry>, b: seq<PriceEntry>)
    requires |a| == |b| && a != []
    requires a[..|a| - 1] == b[..|b| - 1] && a[|a| - 1] == b[|b| - 1]
    ensures a == b
  {
    assert a == a[..|a| - 1] + [a[|a| - 1]] && b == b[..|b| - 1] + [b[|b| - 1]];
  }

  /** Date-sorted arrangements of the same entries have the same length and, when equal dates mean equal entries, the same last entry. */
  lemma LastsAgree(a: seq<PriceEntry>, b: seq<PriceEntry>)
    requires SortedByDate(a) && SortedByDate(b)
    requires multiset(a) == multiset(b)
    requires DatesDetermineEntries(a)
    ensures |a| == |b|
    ensures a != [] ==> a[|a| - 1] == b[|b| - 1]
  {
    assert |a| == |multiset(a)| == |multiset(b)| == |b|;
    if a != [] {
      var n := |a| - 1;
      LastIsNewest(a, b[n]);
      LastIsNewest(b, a[n]);
      assert b[n] in multiset(a);
      assert b[n] in a;
    }
  }

  /** Dropping the last entry keeps the history sorted, removes just that entry, and keeps dates determining entries. */
  lemma DropLast(s: seq<PriceEntry>)
    requires s != []
    ensures multiset(s[..|s| - 1]) == multiset(s) - multiset{s[|s| - 1]}
    ensures SortedByDate(s) ==> SortedByDate(s[..|s| - 1])
    ensures DatesDetermineEntries(s) ==> DatesDetermineEntries(s[..|s| - 1])
  {
    var n := |s| - 1;
    assert s == s[..n] + [s[n]];
    forall x | x in s[..n] ensures x in s {
    }
  }

  /** In a date-sorted history, the last entry is at least as new as any entry of the same multiset. */
  lemma LastIsNewest(s: seq<PriceEntry>, x: PriceEntry)
    requires SortedByDate(s) && x in multiset(s)
    ensures s != [] && x.date <= s[|s| - 1].date
  {
    var k :| 0 <= k < |s| && s[k] == x;
  }

  /** Insertion sort of the history array in place, as the page's `sort` call does. */
  method SortInPlace(a: array<PriceEntry>)
    modifies a
    ensures a[..] == SortByDate(old(a[..]))
  {
    ghost var orig := a[..];
    var i := 0;
    while i < a.Length
      invariant 0 <= i <= a.Length
      invariant a[..i] == SortByDate(orig[..i])
      invariant a[i..] == orig[i..]
    {
      ghost var before := a[..];
      InsertAt(a, i);
      assert a[..i + 1] == SortByDate(orig[..i + 1]) by {
        assert before[..i] == SortByDate(orig[..i]) && before[i] == orig[i];
        SortByDateStep(orig, i);
      }
      assert a[i + 1..] == orig[i + 1..] by {
        assert before[i + 1..] == orig[i + 1..];
      }
      i := i + 1;
    }
    assert a[..] == a[..a.Length] && orig == orig[..a.Length];
  }

  /** Sorting one more entry of a prefix inserts it into the sorted prefix. */
  lemma SortByDateStep(s: seq<PriceEntry>, i: int)
    requires 0 <= i < |s|
    ensures SortByDate(s[..i + 1]) == Insert(SortByDate(s[..i]), s[i])
  {
    assert s[..i + 1][..i] == s[..i];
  }

  /** One pass of the insertion sort: moves `a[i]` left past the later-dated entries of `a[..i]`. */
  method InsertAt(a: array<PriceEntry>, i: int)
    requires 0 <= i < a.Length
    modifies a
    ensures a[..i + 1] == Insert(old(a[..i]), old(a[i]))
    ensures a[i + 1..] == old(a[i + 1..])
  {
    ghost var sorted := a[..i];
    ghost var rest := a[i + 1..];
    var e := a[i];
    var j := i;
    while j > 0 && a[j - 1].date > e.date
      invariant 0 <= j <= i
      invariant forall k :: 0 <= k < j ==> a[k] == sorted[k]
      invariant forall k :: j < k <= i ==> a[k] == sorted[k - 1]
      invariant forall k :: j <= k < i ==> sorted[k].date > e.date
      invariant a[i + 1..] == rest
    {
      a[j] := a[j - 1];
      j := j - 1;
    }
    a[j] := e;
    ghost var expected := sorted[..j] + [e] + sorted[j..i];
    forall k | 0 <= k <= i ensures a[k] == expected[k] {
      if k < j {
        assert expected[k] == sorted[..j][k];
      } else if j < k {
        assert expected[k] == sorted[j..i][k - j - 1];
      }
    }
    assert a[..i + 1] == expected;
    InsertSplit(sorted, e, j);
  }

  /** Unfolding `Insert` once when the last entry is dated after `e`. */
  lemma InsertPastLater(p: seq<PriceEntry>, e: PriceEntry)
    requires p != [] && p[|p| - 1].date > e.date
    ensures Insert(p, e) == Insert(p[..|p| - 1], e) + [p[|p| - 1]]
  {
  }

  /**
   * `Insert` puts `e` right after the newest entry dated on or before it: before the suffix of
   * entries dated after `e`.
   */
  lemma {:induction false} InsertSplit(p: seq<PriceEntry>, e: PriceEntry, j: int)
    requires 0 <= j <= |p|
    requires j == 0 || p[j - 1].date <= e.date
    requires forall k :: j <= k < |p| ==> p[k].date > e.date
    ensures Insert(p, e) == p[..j] + [e] + p[j..]
    decreases |p|
  {
    if j == |p| {
      assert p[..j] == p && p[j..] == [];
    } else {
      var init, last := p[..|p| - 1], p[|p| - 1];
      assert Insert(p, e) == Insert(init, e) + [last] by { InsertPastLater(p, e); }
      assert Insert(init, e) == init[..j] + [e] + init[j..] by { InsertSplit(init, e, j); }
      assert init[..j] == p[..j] && init[j..] + [last] == p[j..];
      calc {
        Insert(p, e);
        Insert(init, e) + [last];
        init[..j] + [e] + init[j..] + [last];
        p[..j] + [e] + (init[j..] + [last]);
      }
    }
  }

  // ---------------------------------------------------------------------------------------------
  // The trend computed from the sorted history

  /** `chartData`: one point per entry, in the same order, with the price truncated to a whole number. */
  function ChartData(sorted: seq<PriceEntry>): (c: seq<ChartPoint>)
    ensures |c| == |sorted|
    ensures forall k :: 0 <= k < |c| ==> c[k].rawDate == sorted[k].date && c[k].price == ParseInt(sorted[k].price)
  {
    seq(|sorted|, k requires 0 <= k < |sorted| => ChartPoint(ParseInt(sorted[k].price), sorted[k].date))
  }

  /** `lastEntry?.price || 0`. */
  function LatestPrice(chart: seq<ChartPoint>): (p: int)
    ensures chart == [] ==> p == 0
    ensures chart != [] ==> p == chart[|chart| - 1].price
  {
    if chart == [] then 0 else chart[|chart| - 1].price
  }

  /** `moment(lastDate).subtract(7, "days")`; with no entries `lastDate` is undefined and moment takes `now`. */
  function TargetDate(chart: seq<ChartPoint>, now: int): (t: int)
    ensures chart != [] ==> t + SevenDays == chart[|chart| - 1].rawDate
  {
    (if chart == [] then now else chart[|chart| - 1].rawDate) - SevenDays
  }

  /** Index of the newest point dated on or before `target`, or -1 when there is none. */
  function ReferenceIndex(chart: seq<ChartPoint>, target: int): (r: int)
    ensures -1 <= r < |chart|
    ensures r >= 0 ==> chart[r].rawDate <= target
    ensures forall j :: r < j < |chart| ==> chart[j].rawDate > target
  {
    if chart == [] then -1
    else if chart[|chart| - 1].rawDate <= target then |chart| - 1
    else ReferenceIndex(chart[..|chart| - 1], target)
  }

  /** `price7DaysAgo`: the price at the reference index, or `fallback` (the latest price) when there is none. */
  function ReferencePrice(chart: seq<ChartPoint>, target: int, fallback: int): (p: int)
    ensures (forall j :: 0 <= j < |chart| ==> chart[j].rawDate > target) ==> p == fallback
    ensures (exists j :: 0 <= j < |chart| && chart[j].rawDate <= target) ==>
      exists k :: 0 <= k < |chart| && chart[k].rawDate <= target && p == chart[k].price &&
        forall j :: k < j < |chart| ==> chart[j].rawDate > target
  {
    var k := ReferenceIndex(chart, target);
    if k < 0 then fallback else chart[k].price
  }

  /** The backward `for` loop with `break` that looks for the reference price. */
  method FindReference(chart: seq<ChartPoint>, target: int, latest: int) returns (price: int)
    ensures price == ReferencePrice(chart, target, latest)
  {
    price := latest;
    var i := |chart| - 1;
    while i >= 0
      invariant -1 <= i < |chart|
      invariant price == latest
      invariant forall j :: i < j < |chart| ==> chart[j].rawDate > target
    {
      if chart[i].rawDate <= target {
        price := chart[i].price;
        break;
      }
      i := i - 1;
    }
  }

  /** `trendPercent`, without the two-decimal rounding: guarded against a zero reference. */
  function TrendPercent(latest: int, reference: int): (pct: real)
    ensures reference != 0 ==> pct * (reference as real) == ((latest - reference) as real) * 100.0
    ensures reference == 0 || latest == reference ==> pct == 0.0
  {
    if reference != 0 then ((latest - reference) as real / reference as real) * 100.0 else 0.0
  }

  /** The whole calculation, as one function of the history in its stored order. */
  function TrendOf(history: seq<PriceEntry>, now: int): (t: Trend)
    ensures t.isPositive <==> t.percent >= 0.0
    ensures t.referencePrice == 0 ==> t.percent == 0.0 && t.isPositive
    ensures history == [] ==> t.latestPrice == 0
  {
    var chart := ChartData(SortByDate(history));
    var latest := LatestPrice(chart);
    var reference := ReferencePrice(chart, TargetDate(chart, now), latest);
    var pct := TrendPercent(latest, reference);
    Trend(latest, reference, pct, pct >= 0.0)
  }

  /** The page's computation: sorts the history array in place, then derives the trend. */
  method ComputeTrend(history: array<PriceEntry>, now: int) returns (t: Trend)
    modifies history
    ensures history[..] == SortByDate(old(history[..]))
    ensures t == TrendOf(old(history[..]), now)
  {
    SortInPlace(history);
    var chart := ChartData(history[..]);
    var latest := LatestPrice(chart);
    var target := TargetDate(chart, now);
    var reference := FindReference(chart, target, latest);
    var pct := TrendPercent(latest, reference);
    t := Trend(latest, reference, pct, pct >= 0.0);
  }

  // ---------------------------------------------------------------------------------------------
  // Properties of the trend

  /** The chart series is in ascending date order and has one point per history entry. */
  lemma ChartIsChronological(history: seq<PriceEntry>)
    ensures |ChartData(SortByDate(history))| == |history|
    ensures forall i, j :: 0 <= i < j < |history| ==>
      ChartData(SortByDate(history))[i].rawDate <= ChartData(SortByDate(history))[j].rawDate
  {
    SortByDateSortsAndPermutes(history);
  }

  /** The latest price is the truncated price of an entry whose date is the newest in the history, whatever the stored order. */
  lemma LatestIsNewest(history: seq<PriceEntry>, now: int)
    requires history != []
    ensures exists e :: e in history && TrendOf(history, now).latestPrice == ParseInt(e.price) &&
                        forall x :: x in history ==> x.date <= e.date
  {
    var sorted := SortByDate(history);
    SortByDateSortsAndPermutes(history);
    var e := sorted[|sorted| - 1];
    assert e in multiset(history);
    forall x | x in history ensures x.date <= e.date {
      assert x in multiset(sorted);
      var k :| 0 <= k < |sorted| && sorted[k] == x;
    }
  }

  /**
   * The page sorts the cached history in place, so every later render sees it sorted: the trend
   * of the sorted history is the trend of the stored one.
   */
  lemma TrendOfSortedIsSame(history: seq<PriceEntry>, now: int)
    ensures TrendOf(SortByDate(history), now) == TrendOf(history, now)
  {
    SortByDateSortsAndPermutes(history);
    SortSortedIsIdentity(SortByDate(history));
  }

  /** With no history the trend is flat at zero and shown as positive. */
  lemma EmptyHistoryIsFlat(now: int)
    ensures TrendOf([], now) == Trend(0, 0, 0.0, true)
  {
  }

  /** When every entry is dated within seven days of every other, the reference falls back to the latest price and the trend is 0. */
  lemma {:induction false} AllWithinSevenDaysIsFlat(history: seq<PriceEntry>, now: int)
    requires forall x, y :: x in history && y in history ==> y.date - x.date < SevenDays
    ensures TrendOf(history, now).referencePrice == TrendOf(history, now).latestPrice
    ensures TrendOf(history, now).percent == 0.0 && TrendOf(history, now).isPositive
  {
    var sorted := SortByDate(history);
    SortByDateSortsAndPermutes(history);
    var chart := ChartData(sorted);
    if chart != [] {
      var target := TargetDate(chart, now);
      forall j | 0 <= j < |chart| ensures chart[j].rawDate > target {
        assert sorted[j] in multiset(history) && sorted[|sorted| - 1] in multiset(history);
      }
    }
  }

  /** A single observation is its own reference: the trend is 0. */
  lemma SingleEntryIsFlat(e: PriceEntry, now: int)
    ensures TrendOf([e], now) == Trend(ParseInt(e.price), ParseInt(e.price), 0.0, true)
  {
    AllWithinSevenDaysIsFlat([e], now);
  }

  /** The reference price is taken from an entry at or before the target date, and every later entry is after it. */
  lemma ReferenceIsLastBeforeTarget(history: seq<PriceEntry>, now: int)
    requires history != []
    ensures var chart := ChartData(SortByDate(history));
      var target := chart[|chart| - 1].rawDate - SevenDays;
      (exists j :: 0 <= j < |chart| && chart[j].rawDate <= target) ==>
        exists k :: 0 <= k < |chart| && chart[k].rawDate <= target &&
          TrendOf(history, now).referencePrice == chart[k].price &&
          forall j :: k < j < |chart| ==> chart[j].rawDate > target
  {
  }

  /** With a positive reference, the trend is shown as positive exactly when the price did not fall. */
  lemma PositiveExactlyWhenNotFalling(latest: int, reference: int)
    requires reference > 0
    ensures TrendPercent(latest, reference) >= 0.0 <==> latest >= reference
  {
    var pct := TrendPercent(latest, reference);
    if latest >= reference {
      assert pct * (reference as real) >= 0.0;
    } else {
      assert pct * (reference as real) < 0.0;
    }
  }

  /** Reordering the stored history does not change the trend, as long as equal dates mean equal entries. */
  lemma TrendIgnoresStoredOrder(h1: seq<PriceEntry>, h2: seq<PriceEntry>, now: int)
    requires multiset(h1) == multiset(h2)
    requires DatesDetermineEntries(h1)
    ensures TrendOf(h1, now) == TrendOf(h2, now)
  {
    var s1, s2 := SortByDate(h1), SortByDate(h2);
    SortByDateSortsAndPermutes(h1);
    SortByDateSortsAndPermutes(h2);
    assert DatesDetermineEntries(s1) by {
      forall x, y | x in s1 && y in s1 && x.date == y.date ensures x == y {
        assert x in multiset(h1) && y in multiset(h1);
      }
    }
    SortedPermutationUnique(s1, s2);
  }

  /** Three observations on 1, 5 and 10 January 2024 at 100, 110 and 120: reference 100, trend +20%. */
  lemma RisingWeekExample(now: int)
    ensures var jan1 := 1_704_067_200_000;
      TrendOf([PriceEntry(jan1, 100.0), PriceEntry(jan1 + 4 * DayMs, 110.0), PriceEntry(jan1 + 9 * DayMs, 120.0)], now)
        == Trend(120, 100, 20.0, true)
  {
    var jan1 := 1_704_067_200_000;
    var h := [PriceEntry(jan1, 100.0), PriceEntry(jan1 + 4 * DayMs, 110.0), PriceEntry(jan1 + 9 * DayMs, 120.0)];
    assert SortedByDate(h);
    SortSortedIsIdentity(h);
    var chart := ChartData(h);
    assert chart == [ChartPoint(100, jan1), ChartPoint(110, jan1 + 4 * DayMs), ChartPoint(120, jan1 + 9 * DayMs)];
    assert ReferenceIndex(chart, jan1 + 2 * DayMs) == 0;
  }
}
