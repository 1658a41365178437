/** The public "All Products" page: the listing query, its filters, pagination and the details link. */
module AllProducts {
  import opened Common

  /** The date filter's two inputs, named `startDate` and `endDate`. */
  datatype DateRange = DateRange(startDate: string, endDate: string)

  /** Which of the two date inputs changed. */
  datatype DateField = StartDate | EndDate

  /** A value handed to `URLSearchParams.append`: text, or a number it will stringify. */
  datatype QueryValue = Text(text: string) | Number(n: int)

  /** One `key=value` pair of the query string. */
  datatype Param = Param(key: string, value: QueryValue)

  /** Products per page, sent as `limit`. */
  const PageSize: int := 10

  /** The keys of a parameter list, in order. */
  function Keys(params: seq<Param>): (ks: seq<string>)
    ensures |ks| == |params| && forall i :: 0 <= i < |params| ==> ks[i] == params[i].key
  {
    if params == [] then [] else [params[0].key] + Keys(params[1..])
  }

  /** The value of the first pair with the given key. */
  function Lookup(params: seq<Param>, key: string): (v: Option<QueryValue>)
    decreases |params|
  {
    if params == [] then None
    else if params[0].key == key then Some(params[0].value)
    else Lookup(params[1..], key)
  }

  /** The pairs `fetchProducts` appends, in order. */
  function QueryParams(dateRange: Option<DateRange>, priceSort: string, page: int): seq<Param>
  {
    DateParams(dateRange) + SortParams(priceSort) + PageParams(page)
  }

  /** `fetchProducts(filters, page)`: the query string built by successive `append` calls. */
  method FetchQuery(dateRange: Option<DateRange>, priceSort: string, page: int) returns (params: seq<Param>)
    ensures params == QueryParams(dateRange, priceSort, page)
  {
    params := [];
    if dateRange.Some? {
      params := params + [Param("startDate", Text(dateRange.value.startDate))];
      params := params + [Param("endDate", Text(dateRange.value.endDate))];
    }
    if priceSort != "" {
      params := params + [Param("priceSort", Text(priceSort))];
    }
    params := params + [Param("page", Number(page))];
    params := params + [Param("limit", Number(PageSize))];
  }

  /** The date pairs of the query, when there is a date range. */
  function DateParams(dateRange: Option<DateRange>): seq<Param>
  {
    if dateRange.Some? then [Param("startDate", Text(dateRange.value.startDate)),
                             Param("endDate", Text(dateRange.value.endDate))] else []
  }

  /** The sort pair of the query, when a sort is chosen. */
  function SortParams(priceSort: string): seq<Param>
  {
    if priceSort != "" then [Param("priceSort", Text(priceSort))] else []
  }

  /** The pagination pairs that end every query. */
  function PageParams(page: int): seq<Param>
  {
    [Param("page", Number(page)), Param("limit", Number(PageSize))]
  }

  /** The keys appear in the order startDate, endDate (with a date range), priceSort (when chosen), page, limit. */
  lemma QueryKeys(dateRange: Option<DateRange>, priceSort: string, page: int)
    ensures Keys(QueryParams(dateRange, priceSort, page)) ==
      (if dateRange.Some? then ["startDate", "endDate"] else [])
      + (if priceSort != "" then ["priceSort"] else []) + ["page", "limit"]
  {
    var dates, sort, tail := DateParams(dateRange), SortParams(priceSort), PageParams(page);
    KeysConcat(dates, sort);
    KeysConcat(dates + sort, tail);
    PartKeys(dateRange, priceSort, page);
  }

  /** The keys of each part of the query. */
  lemma PartKeys(dateRange: Option<DateRange>, priceSort: string, page: int)
    ensures Keys(DateParams(dateRange)) == if dateRange.Some? then ["startDate", "endDate"] else []
    ensures Keys(SortParams(priceSort)) == if priceSort != "" then ["priceSort"] else []
    ensures Keys(PageParams(page)) == ["page", "limit"]
  {
    var ks := Keys(PageParams(page));
    assert ks == [ks[0], ks[1]];
    if dateRange.Some? {
      var ds := Keys(DateParams(dateRange));
      assert ds == [ds[0], ds[1]];
    }
  }

  /** Every query carries its page number and a limit of 10. */
  lemma QueryPageAndLimit(dateRange: Option<DateRange>, priceSort: string, page: int)
    ensures Lookup(QueryParams(dateRange, priceSort, page), "page") == Some(Number(page))
    ensures Lookup(QueryParams(dateRange, priceSort, page), "limit") == Some(Number(PageSize))
  {
    var front, tail := DateParams(dateRange) + SortParams(priceSort), PageParams(page);
    assert QueryParams(dateRange, priceSort, page) == front + tail;
    KeysConcat(DateParams(dateRange), SortParams(priceSort));
    assert "page" !in Keys(front) && "limit" !in Keys(front);
    LookupConcat(front, tail, "page");
    LookupConcat(front, tail, "limit");
    assert tail[1..] == [tail[1]];
  }

  /** With a date range, both of its dates are sent. */
  lemma QueryDates(dateRange: DateRange, priceSort: string, page: int)
    ensures Lookup(QueryParams(Some(dateRange), priceSort, page), "startDate") == Some(Text(dateRange.startDate))
    ensures Lookup(QueryParams(Some(dateRange), priceSort, page), "endDate") == Some(Text(dateRange.endDate))
  {
    var dates, rest := DateParams(Some(dateRange)), SortParams(priceSort) + PageParams(page);
    assert QueryParams(Some(dateRange), priceSort, page) == dates + rest;
    assert dates[1..] == [dates[1]] && dates[1..][1..] == [];
    LookupConcat(dates, rest, "startDate");
    LookupConcat(dates, rest, "endDate");
  }

  /** priceSort is sent, with the chosen value, exactly when a sort is chosen. */
  lemma QuerySort(dateRange: Option<DateRange>, priceSort: string, page: int)
    ensures priceSort != "" ==> Lookup(QueryParams(dateRange, priceSort, page), "priceSort") == Some(Text(priceSort))
    ensures priceSort == "" ==> Lookup(QueryParams(dateRange, priceSort, page), "priceSort").None?
  {
    var dates, sort, tail := DateParams(dateRange), SortParams(priceSort), PageParams(page);
    assert QueryParams(dateRange, priceSort, page) == dates + (sort + tail);
    assert "priceSort" !in Keys(dates);
    LookupConcat(dates, sort + tail, "priceSort");
    if priceSort != "" {
      LookupConcat(sort, tail, "priceSort");
    } else {
      assert sort + tail == tail && tail[1..] == [tail[1]] && tail[1..][1..] == [];
      assert "page" != "priceSort" && "limit" != "priceSort";
      assert Lookup(tail, "priceSort") == Lookup(tail[1..], "priceSort") == Lookup([], "priceSort");
    }
  }

  /** Looking a key up in a concatenation finds it in the first part if it is there. */
  lemma {:induction false} LookupConcat(a: seq<Param>, b: seq<Param>, key: string)
    ensures Lookup(a + b, key) == if key in Keys(a) then Lookup(a, key) else Lookup(b, key)
    decreases |a|
  {
    if a == [] {
      assert a + b == b;
    } else {
      assert (a + b)[1..] == a[1..] + b;
      assert Keys(a) == [a[0].key] + Keys(a[1..]);
      LookupConcat(a[1..], b, key);
    }
  }

  /** The keys of a concatenation are the concatenated keys. */
  lemma {:induction false} KeysConcat(a: seq<Param>, b: seq<Param>)
    ensures Keys(a + b) == Keys(a) + Keys(b)
    decreases |a|
  {
    if a != [] {
      assert (a + b)[1..] == a[1..] + b;
      KeysConcat(a[1..], b);
    }
  }

  /** `disabled={currentPage === 1}`. */
  predicate PreviousDisabled(currentPage: int)
  {
    currentPage == 1
  }

  /** `disabled={currentPage === data.totalPages}`, as written. */
  predicate NextDisabled(currentPage: int, totalPages: int)
  {
    currentPage == totalPages
  }

  /** The rule the "Page n of m" control evidently intends: no page after the last (and none when there are none). */
  predicate NextDisabledBounded(currentPage: int, totalPages: int)
  {
    currentPage >= totalPages
  }

  /** `handleViewDetails(productId)`: a visitor is sent to sign in, a signed-in user to the product. */
  function DetailsTarget(user: Option<User>, productId: string): (path: string)
    ensures user.None? ==> path == "/login"
    ensures user.Some? ==> |path| == 9 + |productId| && path[..9] == "/product/" && path[9..] == productId
  {
    if user.None? then "/login" else "/product/" + productId
  }

  /** The two destinations never coincide, and the product link names the product it was built from. */
  lemma DetailsTargetsDistinct(user: User, id1: string, id2: string)
    ensures DetailsTarget(None, id1) != DetailsTarget(Some(user), id2)
    ensures DetailsTarget(Some(user), id1) == DetailsTarget(Some(user), id2) <==> id1 == id2
  {
    var p1, p2 := DetailsTarget(Some(user), id1), DetailsTarget(Some(user), id2);
    assert DetailsTarget(None, id1)[1] == 'l' && DetailsTarget(Some(user), id2)[1] == 'p';
    if p1 == p2 {
      assert id1 == p1[9..] == p2[9..] == id2;
    }
  }

  // ---------------------------------------------------------------------------------------------
  // Pagination: Next as written runs past the last page

  /** The page after `clicks` presses of an enabled Next button, under the as-written rule. */
  function PageAfterNext(start: int, totalPages: int, clicks: nat): int
    decreases clicks
  {
    if clicks == 0 || NextDisabled(start, totalPages) then start
    else PageAfterNext(start + 1, totalPages, clicks - 1)
  }

  /** With no results (`totalPages` 0), Next stays enabled from page 1 and every press moves one page further. */
  lemma {:induction false} NextRunsPastLastPage(start: int, clicks: nat)
    requires start >= 1
    ensures PageAfterNext(start, 0, clicks) == start + clicks
    ensures !NextDisabled(start + clicks, 0)
    decreases clicks
  {
    if clicks > 0 {
      NextRunsPastLastPage(start + 1, clicks - 1);
    }
  }

  /** Under the bounded rule a page within `1..max(1, totalPages)` stays within it after Previous or Next. */
  lemma BoundedNextStaysInRange(currentPage: int, totalPages: int)
    requires 1 <= currentPage && (currentPage <= totalPages || currentPage == 1)
    ensures !NextDisabledBounded(currentPage, totalPages) ==> currentPage + 1 <= totalPages
    ensures !PreviousDisabled(currentPage) ==> 1 <= currentPage - 1 <= totalPages
    ensures totalPages <= currentPage ==> NextDisabledBounded(currentPage, totalPages)
  {
  }

  /** The page's state: the sort choice, the date filter and the current page. */
  class ListingPage {
    var priceSort: string
    var dateRange: DateRange
    var currentPage: int

    /** The page a user can reach: at least 1, and no further than the last page once one exists. */
    ghost predicate InRange(totalPages: int)
      reads this
    {
      1 <= currentPage && (currentPage <= totalPages || currentPage == 1)
    }

    /** No sorting, an empty date filter, page 1. */
    constructor()
      ensures priceSort == "" && dateRange == DateRange("", "") && currentPage == 1
      ensures forall totalPages :: InRange(totalPages)
    {
      priceSort := "";
      dateRange := DateRange("", "");
      currentPage := 1;
    }

    /** The query the page fetches: the date range is always an object, so both dates are always sent, even empty. */
    method Query() returns (params: seq<Param>)
      ensures params == QueryParams(Some(dateRange), priceSort, currentPage)
      ensures |params| >= 2 && Keys(params)[..2] == ["startDate", "endDate"]
      ensures Lookup(params, "startDate") == Some(Text(dateRange.startDate))
      ensures Lookup(params, "endDate") == Some(Text(dateRange.endDate))
      ensures Lookup(params, "page") == Some(Number(currentPage))
      ensures Lookup(params, "limit") == Some(Number(PageSize))
      ensures priceSort != "" ==> Lookup(params, "priceSort") == Some(Text(priceSort))
      ensures priceSort == "" ==> Lookup(params, "priceSort").None?
    {
      params := FetchQuery(Some(dateRange), priceSort, currentPage);
      QueryKeys(Some(dateRange), priceSort, currentPage);
      QueryDates(dateRange, priceSort, currentPage);
      QueryPageAndLimit(Some(dateRange), priceSort, currentPage);
      QuerySort(Some(dateRange), priceSort, currentPage);
    }

    /** `handleSortChange`. */
    method HandleSortChange(value: string)
      modifies this
      ensures priceSort == value && dateRange == old(dateRange) && currentPage == old(currentPage)
    {
      priceSort := value;
    }

    /** `handleDateFilterChange`: only the input with that name changes. */
    method HandleDateFilterChange(field: DateField, value: string)
      modifies this
      ensures field == StartDate ==> dateRange == DateRange(value, old(dateRange.endDate))
      ensures field == EndDate ==> dateRange == DateRange(old(dateRange.startDate), value)
      ensures priceSort == old(priceSort) && currentPage == old(currentPage)
    {
      match field
      case StartDate => dateRange := dateRange.(startDate := value);
      case EndDate => dateRange := dateRange.(endDate := value);
    }

    /** A press of Previous: one page back unless on page 1. */
    method ClickPrevious(totalPages: int)
      modifies this
      ensures currentPage == (if PreviousDisabled(old(currentPage)) then old(currentPage) else old(currentPage) - 1)
      ensures priceSort == old(priceSort) && dateRange == old(dateRange)
      ensures old(InRange(totalPages)) ==> InRange(totalPages)
    {
      if !PreviousDisabled(currentPage) {
        currentPage := currentPage - 1;
      }
    }

    /** A press of Next under the bounded rule: one page on unless on (or past) the last. */
    method ClickNext(totalPages: int)
      modifies this
      ensures currentPage ==
        (if NextDisabledBounded(old(currentPage), totalPages) then old(currentPage) else old(currentPage) + 1)
      ensures priceSort == old(priceSort) && dateRange == old(dateRange)
      ensures old(InRange(totalPages)) ==> InRange(totalPages)
    {
      if !NextDisabledBounded(currentPage, totalPages) {
        currentPage := currentPage + 1;
      }
    }
  }
}
