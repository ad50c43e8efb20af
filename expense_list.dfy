/**
 * Pagination of the expense list: how the loader defaults the `limit` and `offset`
 * search parameters, how the page count and the current page are derived from them,
 * where `goToPage` navigates, and when the Previous and Next buttons are disabled.
 * The numbers are the integers the list works with; JavaScript's `Math.floor` and
 * `Math.ceil` of a quotient are written out as exact floor and ceiling division.
 */
module ExpenseList {
  import opened Wrappers
  import opened JsString

  const DEFAULT_PAGE_SIZE: int := 50
  const FIRST_OFFSET: int := 0

  /** The result of JavaScript's `Number(...)`, restricted to integer results. */
  datatype JsNumber = NaN | Num(value: int)

  /** `x || fallback` on a number: `NaN` and `0` are falsy. */
  function NumberOr(n: JsNumber, fallback: int): (r: int)
    ensures n.Num? && n.value != 0 ==> r == n.value
    ensures (n.NaN? || n == Num(0)) ==> r == fallback
  {
    if n.Num? && n.value != 0 then n.value else fallback
  }

  /**
   * `Number(url.searchParams.get(name))`: a missing parameter is `null`, which `Number`
   * turns into `0`; a present one is converted by `number`, JavaScript's string-to-number.
   */
  function ParamNumber(param: Option<string>, number: string -> JsNumber): (r: JsNumber)
    ensures param.None? ==> r == Num(0)
    ensures param.Some? ==> r == number(param.value)
  {
    match param
    case None => Num(0)
    case Some(s) => number(s)
  }

  /** The loader's page size: the `limit` parameter, or 50 when it is absent, `0` or not a number. */
  function LoaderLimit(param: Option<string>, number: string -> JsNumber): (limit: int)
    ensures limit != 0
    ensures param.None? ==> limit == DEFAULT_PAGE_SIZE
    ensures param.Some? && number(param.value).Num? && number(param.value).value != 0 ==>
      limit == number(param.value).value
    ensures param.Some? && (number(param.value).NaN? || number(param.value) == Num(0)) ==>
      limit == DEFAULT_PAGE_SIZE
  {
    NumberOr(ParamNumber(param, number), DEFAULT_PAGE_SIZE)
  }

  /** The loader's offset: the `offset` parameter, or 0 when it is absent or not a number. */
  function LoaderOffset(param: Option<string>, number: string -> JsNumber): (offset: int)
    ensures param.None? ==> offset == FIRST_OFFSET
    ensures param.Some? && number(param.value).Num? ==> offset == number(param.value).value
    ensures param.Some? && number(param.value).NaN? ==> offset == FIRST_OFFSET
  {
    NumberOr(ParamNumber(param, number), FIRST_OFFSET)
  }

  /** `Math.floor(a / b)`, exact. */
  function FloorDiv(a: int, b: int): (q: int)
    requires b != 0
    ensures b > 0 ==> q * b <= a < (q + 1) * b
    ensures b < 0 ==> (q + 1) * b < a <= q * b
  {
    if b > 0 then a / b else (-a) / (-b)
  }

  /** `Math.ceil(a / b)`, exact. */
  function CeilDiv(a: int, b: int): (q: int)
    requires b != 0
    ensures b > 0 ==> (q - 1) * b < a <= q * b
    ensures b < 0 ==> q * b <= a < (q - 1) * b
  {
    -FloorDiv(-a, b)
  }

  /** `totalPages`: the number of pages of `limit` expenses needed to show `totalCount`. */
  function TotalPages(totalCount: int, limit: int): (pages: int)
    requires limit != 0
  {
    CeilDiv(totalCount, limit)
  }

  /** `currentPage`: the 1-based page holding the expense at `offset`. */
  function CurrentPage(offset: int, limit: int): (page: int)
    requires limit != 0
  {
    FloorDiv(offset, limit) + 1
  }

  /** The offset `goToPage(page)` navigates to. */
  function PageOffset(page: int, limit: int): (offset: int)
  {
    (page - 1) * limit
  }

  /** The query string `goToPage(page)` navigates to: `?limit=L&offset=O`. */
  function NavigationQuery(page: int, limit: int): (query: string)
  {
    "?limit=" + IntToString(limit) + "&offset=" + IntToString(PageOffset(page, limit))
  }

  /** The Previous button is disabled on page 1. */
  predicate PreviousDisabled(currentPage: int)
  {
    currentPage == 1
  }

  /** The Next button is disabled on the last page. */
  predicate NextDisabled(currentPage: int, totalPages: int)
  {
    currentPage == totalPages
  }

  /** A non-negative offset and a positive page size put the list on page 1 or later. */
  lemma CurrentPageIsPositive(offset: int, limit: int)
    requires offset >= 0 && limit > 0
    ensures CurrentPage(offset, limit) >= 1
  {
  }

  /** Previous is disabled exactly when the offset falls inside the first page. */
  lemma PreviousDisabledOnFirstPage(offset: int, limit: int)
    requires limit > 0
    ensures PreviousDisabled(CurrentPage(offset, limit)) <==> 0 <= offset < limit
  {
  }

  /** Going to page `p` and reading the page back from the new offset yields `p`. */
  lemma {:induction false} GoToPageRoundTrip(page: int, limit: int)
    requires limit != 0
    ensures CurrentPage(PageOffset(page, limit), limit) == page
  {
    if limit > 0 {
      DivOfMultiple(page - 1, limit);
    } else {
      assert -((page - 1) * limit) == (page - 1) * -limit;
      DivOfMultiple(page - 1, -limit);
    }
  }

  /** Dividing a multiple of a positive `k` by `k` is exact. */
  lemma DivOfMultiple(m: int, k: int)
    requires k > 0
    ensures (m * k) / k == m
  {
    var q, r := (m * k) / k, (m * k) % k;
    assert (m - q) * k == r by {
      assert (m - q) * k == m * k - q * k;
    }
    if m - q >= 1 {
      MultiplyAtMost(1, m - q, k);
    } else if m - q <= -1 {
      MultiplyAtMost(m - q, -1, k);
    }
  }

  /** Multiplying both sides by a positive factor keeps a strict order of integers. */
  lemma MultiplyBelow(a: int, b: int, k: int)
    requires k > 0 && a * k < b * k
    ensures a < b
  {
    assert a * k - b * k == (a - b) * k;
  }

  /** Multiplying both sides by a positive factor keeps an order of integers. */
  lemma MultiplyAtMost(a: int, b: int, k: int)
    requires k > 0 && a * k <= b * k
    ensures a <= b
  {
    assert a * k - b * k == (a - b) * k;
  }

  /** With a positive page size, the pages hold every expense and none of them is empty. */
  lemma TotalPagesBounds(totalCount: int, limit: int)
    requires totalCount > 0 && limit > 0
    ensures TotalPages(totalCount, limit) >= 1
    ensures (TotalPages(totalCount, limit) - 1) * limit < totalCount <= TotalPages(totalCount, limit) * limit
  {
  }

  /** With no expenses there are zero pages, so the first page's Next button stays enabled. */
  lemma NoResultsKeepNextEnabled(limit: int)
    requires limit > 0
    ensures TotalPages(0, limit) == 0
    ensures CurrentPage(FIRST_OFFSET, limit) == 1
    ensures !NextDisabled(CurrentPage(FIRST_OFFSET, limit), TotalPages(0, limit))
  {
  }

  /** Any offset inside the last page disables Next. */
  lemma {:induction false} LastPageDisablesNext(totalCount: int, offset: int, limit: int)
    requires totalCount > 0 && limit > 0
    requires (TotalPages(totalCount, limit) - 1) * limit <= offset < TotalPages(totalCount, limit) * limit
    ensures NextDisabled(CurrentPage(offset, limit), TotalPages(totalCount, limit))
  {
    var t := TotalPages(totalCount, limit);
    var q := FloorDiv(offset, limit);
    MultiplyBelow(t - 1, q + 1, limit);
    MultiplyBelow(q, t, limit);
  }

  /** Next from a page-aligned offset moves forward by exactly one page. */
  lemma {:induction false} NextMovesOnePage(page: int, limit: int)
    requires limit != 0
    ensures PageOffset(CurrentPage(PageOffset(page, limit), limit) + 1, limit) == PageOffset(page, limit) + limit
    ensures PageOffset(CurrentPage(PageOffset(page, limit), limit) - 1, limit) == PageOffset(page, limit) - limit
  {
    GoToPageRoundTrip(page, limit);
  }

  /** The piece of text that carries one `name=value` parameter. */
  lemma QueryPieces(l: string, o: string, query: string)
    requires query == "?limit=" + l + "&offset=" + o
    ensures query[0] == '?'
    ensures query[1..] == ("limit=" + l) + ['&'] + ("offset=" + o)
  {
    assert query == "?" + (("limit=" + l) + ['&'] + ("offset=" + o));
  }

  /** A decimal and its name hold no `&`. */
  lemma NoAmpersand(name: string, digits: string)
    requires forall k :: 0 <= k < |name| ==> name[k] != '&'
    requires forall k :: 0 <= k < |digits| ==> IsDigit(digits[k]) || digits[k] == '-'
    ensures '&' !in name + digits
  {
    var s := name + digits;
    forall k | 0 <= k < |s|
      ensures s[k] != '&'
    {
      if k >= |name| {
        assert s[k] == digits[k - |name|];
      }
    }
  }

  /** `goToPage` navigates to a query of exactly two parameters: `limit` first, then `offset`. */
  lemma NavigationCarriesOnlyPaging(page: int, limit: int)
    ensures var query := NavigationQuery(page, limit);
      query[0] == '?'
      && Split(query[1..], '&') == ["limit=" + IntToString(limit), "offset=" + IntToString(PageOffset(page, limit))]
  {
    var l := IntToString(limit);
    var o := IntToString(PageOffset(page, limit));
    QueryPieces(l, o, NavigationQuery(page, limit));
    NoAmpersand("limit=", l);
    NoAmpersand("offset=", o);
    SplitAfterPiece("limit=" + l, '&', "offset=" + o);
    SplitWithoutSeparator("offset=" + o, '&');
  }
}
