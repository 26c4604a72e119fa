/** The search bar (client/components/restaurant-search.tsx): a free-text
    query and a minimum-rating filter that toggles. Each handler returns the
    filters it hands to the home page's search. */
module SearchBar {
  import opened Domain

  /** The filters the bar searches with: the query and the rating, nothing else. */
  function SearchFor(query: string, minRating: Option<int>): (p: RestaurantSearchParams)
    ensures p.q == Some(query) && p.minRating == minRating
    ensures p.latitude.None? && p.longitude.None? && p.radius.None?
    ensures p.page.None? && p.size.None?
  {
    NoFilters.(q := Some(query), minRating := minRating)
  }

  /** The rating selected after pressing the button for `value`: a different
      rating is selected, the selected one is cleared. */
  function NextMinRating(current: Option<int>, value: int): (r: Option<int>)
    ensures r == Some(value) <==> current != Some(value)
    ensures r == None <==> current == Some(value)
  {
    if current != Some(value) then Some(value) else None
  }

  /** Pressing the same rating twice from no filter returns to no filter;
      pressing another rating switches to it. */
  lemma RatingToggles(value: int, other: int)
    requires other != value
    ensures NextMinRating(NextMinRating(None, value), value) == None
    ensures NextMinRating(Some(other), value) == Some(value)
  {
  }

  class RestaurantSearch {
    var query: string
    var minRating: Option<int>

    constructor ()
      ensures query == "" && minRating == None
    {
      query := "";
      minRating := None;
    }

    /** The text field's `onChange`. */
    method SetQuery(text: string)
      modifies this
      ensures query == text && minRating == old(minRating)
    {
      query := text;
    }

    /** `handleSearch` (also the form submit): the current query and rating. */
    method HandleSearch() returns (params: RestaurantSearchParams)
      ensures params.q == Some(query) && params.minRating == minRating
      ensures params == SearchFor(query, minRating)
    {
      params := SearchFor(query, minRating);
    }

    /** `handleMinRatingFilter(value)`: toggles the rating and searches with the
        new selection, so the deferred search agrees with the state. */
    method HandleMinRatingFilter(value: int) returns (params: RestaurantSearchParams)
      modifies this
      ensures minRating == NextMinRating(old(minRating), value) && query == old(query)
      ensures params == SearchFor(query, minRating)
    {
      if minRating != Some(value) {
        minRating := Some(value);
        params := SearchFor(query, Some(value));
      } else {
        minRating := None;
        params := SearchFor(query, None);
      }
    }
  }
}
