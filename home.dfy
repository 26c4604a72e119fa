/** The home page (client/app/page.tsx): the restaurant search state, the
    server's pagination flags, and the window of page numbers shown under
    the results. */
module Home {
  import opened Domain
  import opened ApiClient

  const PageSize := 8
  const MaxVisiblePages := 5

  /** One entry of the page-number control. */
  datatype Slot = Num(n: int) | Ellipsis

  function Max(a: int, b: int): int { if a < b then b else a }
  function Min(a: int, b: int): int { if a < b then a else b }

  /** The links lo, lo + 1, ..., hi (none when hi < lo). */
  function Nums(lo: int, hi: int): (r: seq<Slot>)
    ensures |r| == if hi < lo then 0 else hi - lo + 1
    ensures forall k :: 0 <= k < |r| ==> r[k] == Num(lo + k)
  {
    if hi < lo then [] else seq(hi - lo + 1, k => Num(lo + k))
  }

  /** The page window: nothing without pages, every page when there are at most
      five, otherwise the first page, the current page with its neighbours
      (kept strictly between the first and the last), the last page, and an
      ellipsis on each side where the window does not reach the end. */
  function PageWindow(totalPages: Option<int>, page: int): seq<Slot> {
    if totalPages.None? || totalPages.value <= 0 then []
    else
      var t := totalPages.value;
      if t <= MaxVisiblePages then Nums(1, t)
      else
        [Num(1)]
        + (if page > 3 then [Ellipsis] else [])
        + Nums(Max(2, page - 1), Min(t - 1, page + 1))
        + (if page < t - 2 then [Ellipsis] else [])
        + [Num(t)]
  }

  /** `getPageNumbers`, the loop as written. A negative page count yields no
      links, as `Array.from` with a negative length does. */
  method GetPageNumbers(totalPages: Option<int>, page: int) returns (slots: seq<Slot>)
    ensures slots == PageWindow(totalPages, page)
  {
    if totalPages.None? || totalPages.value == 0 {
      return [];
    }
    var t := totalPages.value;
    if t <= MaxVisiblePages {
      return Nums(1, t);
    }
    slots := [Num(1)];
    if page > 3 {
      slots := slots + [Ellipsis];
    }
    ghost var before := slots;
    var lo, hi := Max(2, page - 1), Min(t - 1, page + 1);
    var i := lo;
    while i <= hi
      invariant lo <= i <= Max(lo, hi + 1)
      invariant slots == before + Nums(lo, i - 1)
    {
      slots := slots + [Num(i)];
      i := i + 1;
    }
    if page < t - 2 {
      slots := slots + [Ellipsis];
    }
    if t > 1 {
      slots := slots + [Num(t)];
    }
  }

  // ---------------------------------------------------------------------
  // Properties of the window

  /** No links without a page count. */
  lemma WindowEmptyWithoutPages(page: int)
    ensures PageWindow(None, page) == [] && PageWindow(Some(0), page) == []
  {
  }

  /** With at most five pages every page is listed, in order, and nothing else. */
  lemma WindowListsAllFewPages(t: int, page: int)
    requires 1 <= t <= MaxVisiblePages
    ensures var w := PageWindow(Some(t), page);
      |w| == t && forall k :: 0 <= k < t ==> w[k] == Num(k + 1)
  {
  }

  /** Slot `k` of the window for more than five pages, position by position. */
  function SlotAt(t: int, page: int, k: int): Slot {
    var a := if page > 3 then 1 else 0;
    var lo, hi := Max(2, page - 1), Min(t - 1, page + 1);
    var m := Max(0, hi - lo + 1);
    if k == 0 then Num(1)
    else if k < 1 + a then Ellipsis
    else if k < 1 + a + m then Num(lo + k - 1 - a)
    else if k < 1 + a + m + (if page < t - 2 then 1 else 0) then Ellipsis
    else Num(t)
  }

  function WindowLength(t: int, page: int): int {
    var lo, hi := Max(2, page - 1), Min(t - 1, page + 1);
    2 + (if page > 3 then 1 else 0) + Max(0, hi - lo + 1) + (if page < t - 2 then 1 else 0)
  }

  lemma WindowShape(t: int, page: int)
    requires t > MaxVisiblePages
    ensures var w := PageWindow(Some(t), page);
      |w| == WindowLength(t, page) &&
      forall k :: 0 <= k < |w| ==> w[k] == SlotAt(t, page, k)
  {
  }

  /** The window for more than five pages starts at page 1, ends at the last
      page, and has at most seven slots, whatever the current page. */
  lemma WindowEnds(t: int, page: int)
    requires t > MaxVisiblePages
    ensures var w := PageWindow(Some(t), page);
      3 <= |w| <= 7 && w[0] == Num(1) && w[|w| - 1] == Num(t)
  {
    WindowShape(t, page);
  }

  /** The numbers in the window increase strictly and stay within 1..t. */
  lemma WindowNumbersIncreaseInRange(t: int, page: int)
    requires t > MaxVisiblePages
    ensures var w := PageWindow(Some(t), page);
      (forall i :: 0 <= i < |w| && w[i].Num? ==> 1 <= w[i].n <= t) &&
      (forall i, j :: 0 <= i < j < |w| && w[i].Num? && w[j].Num? ==> w[i].n < w[j].n)
  {
    WindowShape(t, page);
  }

  /** The current page and its neighbours within 1..t are always listed. */
  lemma WindowShowsNeighbourhood(t: int, page: int)
    requires t > MaxVisiblePages
    ensures forall q :: page - 1 <= q <= page + 1 && 1 <= q <= t ==> Num(q) in PageWindow(Some(t), page)
  {
    WindowShape(t, page);
    var w := PageWindow(Some(t), page);
    var a := if page > 3 then 1 else 0;
    var lo := Max(2, page - 1);
    forall q | page - 1 <= q <= page + 1 && 1 <= q <= t
      ensures Num(q) in w
    {
      if q == 1 {
        assert w[0] == Num(q);
      } else if q == t {
        assert w[|w| - 1] == Num(q);
      } else {
        assert w[q - lo + 1 + a] == Num(q);
      }
    }
  }

  /** Adjacent numbers are consecutive pages, and an ellipsis stands exactly
      where at least one page is skipped. */
  lemma WindowGapsAreEllipses(t: int, page: int)
    requires t > MaxVisiblePages
    ensures var w := PageWindow(Some(t), page);
      (forall i :: 0 <= i < |w| - 1 && w[i].Num? && w[i + 1].Num? ==> w[i + 1].n == w[i].n + 1) &&
      (forall i :: 0 < i < |w| - 1 && w[i] == Ellipsis ==>
        w[i - 1].Num? && w[i + 1].Num? && w[i + 1].n > w[i - 1].n + 1)
  {
    WindowShape(t, page);
  }

  /** An ellipsis follows page 1 exactly when the current page is beyond 3,
      and precedes the last page exactly when the current page is more than
      two before it; there are no other ellipses. */
  lemma WindowEllipsisPlacement(t: int, page: int)
    requires t > MaxVisiblePages && 1 <= page <= t
    ensures var w := PageWindow(Some(t), page);
      (w[1] == Ellipsis <==> page > 3) &&
      (w[|w| - 2] == Ellipsis <==> page < t - 2) &&
      (forall i :: 1 < i < |w| - 2 ==> w[i].Num?)
  {
    WindowShape(t, page);
  }

  /** Ten pages, on page five: 1 … 4 5 6 … 10. */
  lemma WindowExample()
    ensures PageWindow(Some(10), 5) == [Num(1), Ellipsis, Num(4), Num(5), Num(6), Ellipsis, Num(10)]
  {
  }

  // ---------------------------------------------------------------------
  // The pager around the window

  /** What the pager shows: an optional "Previous" link with its target page,
      the page links, and an optional "Next" link with its target. */
  datatype PagerControls = PagerControls(previous: Option<int>, links: seq<Slot>, next: Option<int>)

  /** The pager is shown only for more than one page; "Previous" unless the
      server says this is the first page, "Next" unless it is the last. */
  function Pager(totalPages: Option<int>, first: bool, last: bool, page: int): (v: Option<PagerControls>)
    ensures v.Some? <==> totalPages.Some? && totalPages.value > 1
    ensures v.Some? ==> v.value.links == PageWindow(totalPages, page)
    ensures v.Some? ==> (v.value.previous.Some? <==> !first) && (v.value.next.Some? <==> !last)
    ensures v.Some? && v.value.previous.Some? ==> v.value.previous.value == page - 1
    ensures v.Some? && v.value.next.Some? ==> v.value.next.value == page + 1
  {
    if totalPages.Some? && totalPages.value != 0 && totalPages.value > 1 then
      Some(PagerControls(
        if !first then Some(page - 1) else None,
        PageWindow(totalPages, page),
        if !last then Some(page + 1) else None))
    else None
  }

  /** When the server's flags agree with the current page, every page the
      pager offers lies within 1..totalPages. */
  lemma PagerTargetsInRange(t: int, page: int, first: bool, last: bool)
    requires 1 <= page <= t
    requires first == (page == 1) && last == (page == t)
    ensures var v := Pager(Some(t), first, last, page);
      v.Some? ==>
        (v.value.previous.Some? ==> 1 <= v.value.previous.value <= t) &&
        (v.value.next.Some? ==> 1 <= v.value.next.value <= t) &&
        (forall i :: 0 <= i < |v.value.links| && v.value.links[i].Num? ==> 1 <= v.value.links[i].n <= t)
  {
    if t > MaxVisiblePages {
      WindowNumbersIncreaseInRange(t, page);
    }
  }

  /** A new search from the search bar keeps the current page, so page 9
      can meet a count of 6 after a narrower query: the window then shows
      neither the page nor its neighbours, and "Previous" asks for page 8. */
  lemma StalePageAfterNarrowerSearch()
    ensures PageWindow(Some(6), 9) == [Num(1), Ellipsis, Num(6)]
    ensures Num(8) !in PageWindow(Some(6), 9) && Num(9) !in PageWindow(Some(6), 9)
    ensures var v := Pager(Some(6), false, true, 9);
      v.Some? && v.value.previous == Some(8) && v.value.next.None?
  {
    assert Nums(Max(2, 8), Min(5, 10)) == [];
  }

  // ---------------------------------------------------------------------
  // The search state

  /** `targetPage || page`: a missing or zero target falls back to the page. */
  function EffectivePage(targetPage: Option<int>, page: int): (p: int)
    ensures targetPage.Some? && targetPage.value != 0 ==> p == targetPage.value
    ensures targetPage.None? || targetPage.value == 0 ==> p == page
  {
    if targetPage.Some? && targetPage.value != 0 then targetPage.value else page
  }

  /** The parameters actually sent: the caller's filters, with page and size
      overridden. */
  function PaginatedParams(params: RestaurantSearchParams, targetPage: Option<int>, page: int): (r: RestaurantSearchParams)
    ensures r.q == params.q && r.minRating == params.minRating
    ensures r.latitude == params.latitude && r.longitude == params.longitude && r.radius == params.radius
    ensures r.page == Some(EffectivePage(targetPage, page)) && r.size == Some(PageSize)
  {
    params.(page := Some(EffectivePage(targetPage, page)), size := Some(PageSize))
  }

  /** Whether a search reply replaces the displayed results. */
  predicate Applies(hasApi: bool, reply: Outcome<Option<PaginatedResponse<RestaurantSummary>>>) {
    hasApi && reply.Resolved? && reply.value.Some?
  }

  /** The home page component's state. `hasApi` says whether the API service
      from the application context is available. */
  class HomePage {
    const hasApi: bool
    var loading: bool
    var restaurants: seq<RestaurantSummary>
    var page: int
    var totalPages: Option<int>
    var first: bool
    var last: bool
    var currentSearchParams: RestaurantSearchParams

    constructor (hasApi: bool)
      ensures this.hasApi == hasApi
      ensures loading && restaurants == [] && page == 1 && totalPages == None
      ensures first && !last && currentSearchParams == NoFilters
    {
      this.hasApi := hasApi;
      loading := true;
      restaurants := [];
      page := 1;
      totalPages := None;
      first := true;
      last := false;
      currentSearchParams := NoFilters;
    }

    /** `searchRestaurants(params, targetPage)`: remembers the filters, sends
        them with the page and page size, and on a non-empty reply replaces
        the results and pagination flags together; a failure (including a
        missing API service) keeps them. `sent` is the request made, if any.
        The reply is what the API call produced. */
    method SearchRestaurants(params: RestaurantSearchParams, targetPage: Option<int>,
                             reply: Outcome<Option<PaginatedResponse<RestaurantSummary>>>)
      returns (sent: Option<RestaurantSearchParams>)
      modifies this
      ensures currentSearchParams == params && !loading && page == old(page)
      ensures sent == if hasApi then Some(PaginatedParams(params, targetPage, old(page))) else None
      ensures Applies(hasApi, reply) ==>
        var r := reply.value.value;
        totalPages == Some(r.totalPages) && first == r.first && last == r.last && restaurants == r.content
      ensures !Applies(hasApi, reply) ==>
        totalPages == old(totalPages) && first == old(first) && last == old(last) && restaurants == old(restaurants)
    {
      loading := true;
      currentSearchParams := params;
      var paginated := PaginatedParams(params, targetPage, page);
      if !hasApi {
        // "ApiService is not initialized!" is thrown and logged.
        sent := None;
      } else {
        sent := Some(paginated);
        if reply.Resolved? && reply.value.Some? {
          var response := reply.value.value;
          totalPages := Some(response.totalPages);
          first := response.first;
          last := response.last;
          restaurants := response.content;
        }
      }
      loading := false;
    }

    /** `handlePageChange(n)`: moves to page n and searches again with the
        remembered filters. The search still sees the page of the current
        render, which matters only when n is 0. */
    method HandlePageChange(newPage: int, reply: Outcome<Option<PaginatedResponse<RestaurantSummary>>>)
      returns (sent: Option<RestaurantSearchParams>)
      modifies this
      ensures page == newPage && !loading && currentSearchParams == old(currentSearchParams)
      ensures sent == if hasApi then Some(PaginatedParams(old(currentSearchParams), Some(newPage), old(page))) else None
      ensures Applies(hasApi, reply) ==>
        var r := reply.value.value;
        totalPages == Some(r.totalPages) && first == r.first && last == r.last && restaurants == r.content
      ensures !Applies(hasApi, reply) ==>
        totalPages == old(totalPages) && first == old(first) && last == old(last) && restaurants == old(restaurants)
    {
      sent := SearchRestaurants(currentSearchParams, Some(newPage), reply);
      page := newPage;
    }

    /** The mount effect: with an API service, search once without filters. */
    method Mount(reply: Outcome<Option<PaginatedResponse<RestaurantSummary>>>)
      returns (sent: Option<RestaurantSearchParams>)
      modifies this
      ensures !hasApi ==> sent == None && loading == old(loading) && currentSearchParams == old(currentSearchParams)
      ensures hasApi ==> sent == Some(PaginatedParams(NoFilters, None, old(page))) && !loading
      ensures hasApi ==> currentSearchParams == NoFilters
      ensures page == old(page)
      ensures Applies(hasApi, reply) ==>
        var r := reply.value.value;
        totalPages == Some(r.totalPages) && first == r.first && last == r.last && restaurants == r.content
      ensures !Applies(hasApi, reply) ==>
        totalPages == old(totalPages) && first == old(first) && last == old(last) && restaurants == old(restaurants)
    {
      if !hasApi {
        return None;
      }
      sent := SearchRestaurants(NoFilters, None, reply);
    }
  }
}
