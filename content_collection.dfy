/**
  The useContentCollection composable: one content type's listing ('movie'
  or anything else, which the code treats as series), filtered and paginated,
  drawn either from the weekly trending endpoint ("popular", the default
  source) or from the full catalogue with year, genre and keyword filters, and
  cached per type, page and filters for thirty minutes.

  The network is `respond`, from the URL to the outcome; `JSON.stringify` of
  the filters is `stringify`; `Date.now()` is `now`; the current year is a
  parameter.
 */
module ContentCollection {
  import opened Wrappers
  import opened Text
  import opened Frontend
  import opened Collections

  const ApiRoot := "http://localhost:8000/api/v1/"
  const Popular := "popular"

  /** The filters of this composable: the shared three and the content source. */
  datatype ContentFilters = ContentFilters(base: Filters, contentSource: string)

  /** `{ yearRange: [1900, currentYear], genres: [], keywords: [], contentSource: 'popular' }`. */
  function DefaultContentFilters(currentYear: int): (r: ContentFilters)
    ensures r.base == DefaultFilters(currentYear) && r.contentSource == Popular
  {
    ContentFilters(DefaultFilters(currentYear), Popular)
  }

  /** The fields an `updateFilters` call provides; the content source is taken only when truthy. */
  datatype ContentUpdate = ContentUpdate(base: FilterUpdate, contentSource: Option<string>)

  function WithContentUpdate(f: ContentFilters, u: ContentUpdate): (r: ContentFilters)
    ensures r.base == WithUpdate(f.base, u.base)
    ensures r.contentSource == (if JsTruthy(u.contentSource) then u.contentSource.value else f.contentSource)
  {
    ContentFilters(WithUpdate(f.base, u.base), if JsTruthy(u.contentSource) then u.contentSource.value else f.contentSource)
  }

  /** The error the code shows, in Spanish, naming movies for 'movie' and series otherwise. */
  function ContentError(contentType: string): string {
    "Error al cargar " + (if contentType == "movie" then "las películas" else "las series")
    + ". Por favor, inténtalo de nuevo."
  }

  // ---------------------------------------------------------------- the request URL

  function MediaType(contentType: string): string {
    if contentType == "movie" then "movie" else "tv"
  }

  function Endpoint(contentType: string): string {
    if contentType == "movie" then "all-movies" else "all-series"
  }

  /** The weekly trending page. */
  function TrendingUrl(contentType: string, page: int): string {
    ApiRoot + "trending/" + MediaType(contentType) + "/week?page=" + IntToString(page)
  }

  /** The catalogue endpoint and page, before the filters. */
  function CatalogHead(contentType: string, page: int): string {
    ApiRoot + Endpoint(contentType) + "?page=" + IntToString(page)
  }

  /** Both year bounds when the range has two ends, else nothing. */
  function YearSegment(yearRange: seq<int>): string {
    if |yearRange| == 2 then "&year_from=" + IntToString(yearRange[0]) + "&year_to=" + IntToString(yearRange[1]) else ""
  }

  /** `prefix` and the comma-joined values when there are any, else nothing. */
  function ListSegment(prefix: string, values: seq<string>): string {
    if |values| > 0 then prefix + Join(values, ",") else ""
  }

  /** The catalogue URL: the endpoint and page, then the filters that are set. */
  function CatalogUrl(contentType: string, page: int, f: Filters): string {
    CatalogHead(contentType, page) + YearSegment(f.yearRange)
    + ListSegment("&genres=", f.genres) + ListSegment("&keywords=", f.keywords)
  }

  /** The URL fetchContent requests. */
  function ContentUrl(contentType: string, page: int, f: ContentFilters): string {
    if f.contentSource == Popular then TrendingUrl(contentType, page) else CatalogUrl(contentType, page, f.base)
  }

  /** The popular source ignores the year, genre and keyword filters altogether. */
  lemma PopularIgnoresFilters(contentType: string, page: int, f: ContentFilters, g: Filters)
    requires f.contentSource == Popular
    ensures ContentUrl(contentType, page, f) == ContentUrl(contentType, page, f.(base := g))
    ensures ContentUrl(contentType, page, f) == TrendingUrl(contentType, page)
  {
  }

  /** From the catalogue, the URL starts at the endpoint and page and carries every filter that
      is set: both year bounds, and the genres and keywords comma-joined. */
  lemma CatalogUrlCarriesFilters(contentType: string, page: int, f: ContentFilters)
    requires f.contentSource != Popular
    ensures StartsWith(ContentUrl(contentType, page, f), CatalogHead(contentType, page))
    ensures |f.base.yearRange| == 2 ==> Contains(ContentUrl(contentType, page, f),
      "&year_from=" + IntToString(f.base.yearRange[0]) + "&year_to=" + IntToString(f.base.yearRange[1]))
    ensures |f.base.genres| > 0 ==> Contains(ContentUrl(contentType, page, f), "&genres=" + Join(f.base.genres, ","))
    ensures |f.base.keywords| > 0 ==> Contains(ContentUrl(contentType, page, f), "&keywords=" + Join(f.base.keywords, ","))
  {
    var head := CatalogHead(contentType, page);
    var y := YearSegment(f.base.yearRange);
    var g, k := ListSegment("&genres=", f.base.genres), ListSegment("&keywords=", f.base.keywords);
    var url := ContentUrl(contentType, page, f);
    assert url == head + y + g + k;
    assert url[..|head|] == head;
    ContainsPieces(head, y, g, k);
  }

  // ---------------------------------------------------------------- the composable's state

  datatype ContentState = ContentState(
    items: seq<Item>,
    loading: bool,
    error: Option<string>,
    currentPage: int,
    totalPages: int,
    totalResults: int,
    filters: ContentFilters,
    cache: map<string, ListEntry>)

  function InitialContentState(currentYear: int): ContentState {
    ContentState([], false, None, 1, 0, 0, DefaultContentFilters(currentYear), map[])
  }

  /** generateCacheKey: the content type, the page and the filters text. */
  function ContentKey(st: ContentState, contentType: string, stringify: ContentFilters -> string): string {
    CacheKey(contentType, st.currentPage, stringify(st.filters))
  }

  /** fetchContent. A fresh entry restores the items and totals (not the page). Otherwise the URL
      is requested: success shows the response with its defaults, moves to the page the response
      names (`page || 1`) and caches under the key computed before the request; failure empties
      the items and sets the error. */
  function Fetched(st: ContentState, contentType: string, now: int, stringify: ContentFilters -> string,
                   respond: string -> Outcome<PageResponse>): ContentState {
    var key := ContentKey(st, contentType, stringify);
    match FreshEntry(st.cache, key, now)
    case Some(e) => st.(items := e.data, totalPages := e.totalPages, totalResults := e.totalResults)
    case None =>
      match respond(ContentUrl(contentType, st.currentPage, st.filters))
      case Failed => st.(items := [], loading := false, error := Some(ContentError(contentType)))
      case Answered(response) =>
        var e := EntryFrom(response, now);
        st.(items := e.data, totalPages := e.totalPages, totalResults := e.totalResults,
            currentPage := OrNumber(response.page, 1), loading := false, error := None,
            cache := st.cache[key := e])
  }

  /** A fresh entry is served without a request: the network is not consulted, and only the
      items and totals change. */
  lemma HitIsServedFromCache(st: ContentState, contentType: string, now: int, stringify: ContentFilters -> string,
                             respond: string -> Outcome<PageResponse>, other: string -> Outcome<PageResponse>)
    requires FreshEntry(st.cache, ContentKey(st, contentType, stringify), now).Some?
    ensures var e := st.cache[ContentKey(st, contentType, stringify)];
      Fetched(st, contentType, now, stringify, respond) == st.(items := e.data, totalPages := e.totalPages, totalResults := e.totalResults)
    ensures Fetched(st, contentType, now, stringify, respond) == Fetched(st, contentType, now, stringify, other)
  {
  }

  /** A miss ends with loading false. A failure empties the items, sets the message and keeps the
      page, the totals and the cache; a success clears the error, shows the response with its
      defaults, takes the page the response names and caches the listing. */
  lemma MissOutcomes(st: ContentState, contentType: string, now: int, stringify: ContentFilters -> string,
                     respond: string -> Outcome<PageResponse>)
    requires FreshEntry(st.cache, ContentKey(st, contentType, stringify), now).None?
    ensures var r := Fetched(st, contentType, now, stringify, respond);
      && !r.loading && r.filters == st.filters
      && match respond(ContentUrl(contentType, st.currentPage, st.filters))
         case Failed =>
           && r.items == [] && r.error == Some(ContentError(contentType))
           && r.currentPage == st.currentPage && r.totalPages == st.totalPages && r.cache == st.cache
         case Answered(response) =>
           && r.error.None? && r.items == response.results.GetOr([])
           && r.totalPages == OrNumber(response.totalPages, 0) && r.totalResults == OrNumber(response.totalResults, 0)
           && r.currentPage == OrNumber(response.page, 1)
           && r.cache == st.cache[ContentKey(st, contentType, stringify) := EntryFrom(response, now)]
  {
  }

  /** Within thirty minutes of a successful fetch that stayed on the requested page, fetching
      again is served from the cache and changes nothing. (When the response names another page,
      the listing was cached under the old page's key and the next fetch asks again.) */
  lemma RefetchIsCached(st: ContentState, contentType: string, now: int, later: int,
                        stringify: ContentFilters -> string,
                        respond: string -> Outcome<PageResponse>, next: string -> Outcome<PageResponse>)
    requires FreshEntry(st.cache, ContentKey(st, contentType, stringify), now).None?
    requires respond(ContentUrl(contentType, st.currentPage, st.filters)).Answered?
    requires OrNumber(respond(ContentUrl(contentType, st.currentPage, st.filters)).value.page, 1) == st.currentPage
    requires later - now < CacheExpiration
    ensures var after := Fetched(st, contentType, now, stringify, respond);
      Fetched(after, contentType, later, stringify, next) == after
  {
    var after := Fetched(st, contentType, now, stringify, respond);
    assert ContentKey(after, contentType, stringify) == ContentKey(st, contentType, stringify);
  }

  /** Caching one page never hides or replaces the entry of another page: keys for different pages
      differ whenever the content type has no `_`. */
  lemma OtherPagesUntouched(st: ContentState, contentType: string, now: int, stringify: ContentFilters -> string,
                            respond: string -> Outcome<PageResponse>, page: int, filtersJson: string)
    requires '_' !in contentType
    requires page != st.currentPage
    ensures var r := Fetched(st, contentType, now, stringify, respond);
      var key := CacheKey(contentType, page, filtersJson);
      (key in r.cache <==> key in st.cache) && (key in st.cache ==> r.cache[key] == st.cache[key])
  {
    var key := CacheKey(contentType, page, filtersJson);
    if key == ContentKey(st, contentType, stringify) {
      CacheKeyInjective(contentType, page, filtersJson, contentType, st.currentPage, stringify(st.filters));
    }
  }

  // ---------------------------------------------------------------- filters and pages

  /** updateFilters before its fetch: the provided fields replaced, the page back to 1 when asked. */
  function FiltersUpdated(st: ContentState, u: ContentUpdate, resetPage: bool): ContentState {
    st.(filters := WithContentUpdate(st.filters, u), currentPage := if resetPage then 1 else st.currentPage)
  }

  /** resetFilters before its fetch. */
  function FiltersReset(st: ContentState, currentYear: int): ContentState {
    st.(filters := DefaultContentFilters(currentYear), currentPage := 1)
  }

  /** goToPage: a page inside `[1, totalPages]` is taken and fetched; any other does nothing. */
  function PageVisited(st: ContentState, page: int, contentType: string, now: int, stringify: ContentFilters -> string,
                       respond: string -> Outcome<PageResponse>): ContentState {
    if InRange(page, st.totalPages) then Fetched(st.(currentPage := page), contentType, now, stringify, respond) else st
  }

  /** A reset forgets every earlier update and asks for the first trending page. */
  lemma ResetAsksForFirstTrendingPage(st: ContentState, u: ContentUpdate, resetPage: bool, currentYear: int,
                                      contentType: string)
    ensures FiltersReset(FiltersUpdated(st, u, resetPage), currentYear) == FiltersReset(st, currentYear)
    ensures var r := FiltersReset(st, currentYear);
      ContentUrl(contentType, r.currentPage, r.filters) == TrendingUrl(contentType, 1)
  {
  }

  /** An update changes only the fields it provides; an empty content source keeps the old one. */
  lemma UpdateChangesOnlyWhatIsGiven(st: ContentState, u: ContentUpdate, resetPage: bool)
    ensures var r := FiltersUpdated(st, u, resetPage);
      && r.(filters := st.filters, currentPage := st.currentPage) == st
      && (u.base == FilterUpdate(None, None, None) && !JsTruthy(u.contentSource) ==> r.filters == st.filters)
      && r.currentPage == (if resetPage then 1 else st.currentPage)
  {
    EmptyUpdateKeeps(st.filters.base);
  }

  /** Outside `[1, totalPages]`, goToPage neither moves nor fetches; inside, the request is for
      that page. */
  lemma GoToPageOnlyInRange(st: ContentState, page: int, contentType: string, now: int,
                            stringify: ContentFilters -> string, respond: string -> Outcome<PageResponse>,
                            other: string -> Outcome<PageResponse>)
    ensures !InRange(page, st.totalPages) ==> PageVisited(st, page, contentType, now, stringify, respond) == st
    ensures !InRange(page, st.totalPages) ==>
      PageVisited(st, page, contentType, now, stringify, respond) == PageVisited(st, page, contentType, now, stringify, other)
    ensures InRange(page, st.totalPages) ==>
      PageVisited(st, page, contentType, now, stringify, respond) == Fetched(st.(currentPage := page), contentType, now, stringify, respond)
  {
  }

  class Content {
    const contentType: string
    var items: seq<Item>
    var loading: bool
    var error: Option<string>
    var currentPage: int
    var totalPages: int
    var totalResults: int
    var filters: ContentFilters
    var cache: map<string, ListEntry>

    function State(): ContentState
      reads this
    {
      ContentState(items, loading, error, currentPage, totalPages, totalResults, filters, cache)
    }

    constructor (contentType: string, currentYear: int)
      ensures this.contentType == contentType
      ensures State() == InitialContentState(currentYear)
    {
      this.contentType := contentType;
      items := [];
      loading := false;
      error := None;
      currentPage := 1;
      totalPages := 0;
      totalResults := 0;
      filters := DefaultContentFilters(currentYear);
      cache := map[];
    }

    /** The request URL, extended with `+=` filter by filter. */
    static method BuildUrl(contentType: string, page: int, f: ContentFilters) returns (url: string)
      ensures url == ContentUrl(contentType, page, f)
    {
      if f.contentSource == Popular {
        var mediaType := if contentType == "movie" then "movie" else "tv";
        url := ApiRoot + "trending/" + mediaType + "/week?page=" + IntToString(page);
        return;
      }
      var endpoint := if contentType == "movie" then "all-movies" else "all-series";
      url := ApiRoot + endpoint + "?page=" + IntToString(page);
      ghost var built := CatalogHead(contentType, page);
      assert url == built;
      if |f.base.yearRange| == 2 {
        var years := "&year_from=" + IntToString(f.base.yearRange[0]) + "&year_to=" + IntToString(f.base.yearRange[1]);
        url := url + years;
      }
      built := built + YearSegment(f.base.yearRange);
      assert url == built;
      if |f.base.genres| > 0 {
        var genres := "&genres=" + Join(f.base.genres, ",");
        url := url + genres;
      }
      built := built + ListSegment("&genres=", f.base.genres);
      assert url == built;
      if |f.base.keywords| > 0 {
        var keywords := "&keywords=" + Join(f.base.keywords, ",");
        url := url + keywords;
      }
      built := built + ListSegment("&keywords=", f.base.keywords);
      assert url == built;
    }

    method FetchContent(now: int, stringify: ContentFilters -> string, respond: string -> Outcome<PageResponse>)
      modifies this
      ensures State() == Fetched(old(State()), contentType, now, stringify, respond)
    {
      var key := CacheKey(contentType, currentPage, stringify(filters));
      if key in cache && cache[key].timestamp > now - CacheExpiration {
        items := cache[key].data;
        totalPages := cache[key].totalPages;
        totalResults := cache[key].totalResults;
        return;
      }
      loading := true;
      error := None;
      var url := BuildUrl(contentType, currentPage, filters);
      match respond(url) {
        case Failed =>
          error := Some(ContentError(contentType));
          items := [];
        case Answered(response) =>
          items := response.results.GetOr([]);
          totalPages := OrNumber(response.totalPages, 0);
          totalResults := OrNumber(response.totalResults, 0);
          currentPage := OrNumber(response.page, 1);
          cache := cache[key := ListEntry(items, totalPages, totalResults, now)];
      }
      loading := false;
    }

    /** updateFilters, with the fetch it starts taken to its end. */
    method UpdateFilters(u: ContentUpdate, resetPage: bool, now: int, stringify: ContentFilters -> string,
                         respond: string -> Outcome<PageResponse>)
      modifies this
      ensures State() == Fetched(FiltersUpdated(old(State()), u, resetPage), contentType, now, stringify, respond)
    {
      ApplyUpdate(u, resetPage);
      FetchContent(now, stringify, respond);
    }

    /** The assignments of updateFilters, before its fetch. */
    method ApplyUpdate(u: ContentUpdate, resetPage: bool)
      modifies this
      ensures State() == FiltersUpdated(old(State()), u, resetPage)
    {
      if u.base.yearRange.Some? { filters := filters.(base := filters.base.(yearRange := u.base.yearRange.value)); }
      if u.base.genres.Some? { filters := filters.(base := filters.base.(genres := u.base.genres.value)); }
      if u.base.keywords.Some? { filters := filters.(base := filters.base.(keywords := u.base.keywords.value)); }
      if u.contentSource.Some? && u.contentSource.value != "" { filters := filters.(contentSource := u.contentSource.value); }
      if resetPage {
        currentPage := 1;
      }
    }

    /** resetFilters, with the fetch it starts taken to its end. */
    method ResetFilters(currentYear: int, now: int, stringify: ContentFilters -> string,
                        respond: string -> Outcome<PageResponse>)
      modifies this
      ensures State() == Fetched(FiltersReset(old(State()), currentYear), contentType, now, stringify, respond)
    {
      filters := DefaultContentFilters(currentYear);
      currentPage := 1;
      FetchContent(now, stringify, respond);
    }

    /** goToPage, with the fetch it starts taken to its end. */
    method GoToPage(page: int, now: int, stringify: ContentFilters -> string, respond: string -> Outcome<PageResponse>)
      modifies this
      ensures State() == PageVisited(old(State()), page, contentType, now, stringify, respond)
    {
      if page >= 1 && page <= totalPages {
        currentPage := page;
        FetchContent(now, stringify, respond);
      }
    }
  }
}
