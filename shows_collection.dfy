/**
  The useShowsCollection composable: paginated, filtered movie and series
  listings behind per-key caches that stay fresh for thirty minutes, and the
  all-movies / all-series page loaders driven by route query values.

  The network is `respond`, from the request (its parameters, or its URL)
  to the outcome; `JSON.stringify` of the filters or of the route query is an
  input string; `Date.now()` is `now`; the current year is a parameter.
 */
module ShowsCollection {
  import opened Wrappers
  import opened Text
  import opened Frontend
  import opened Collections

  const MoviesError := "Error fetching movies. Please try again later."
  const SeriesError := "Error fetching series. Please try again later."
  const AllMoviesError := "Error fetching all movies. Please try again later."
  const AllSeriesError := "Error fetching all series. Please try again later."

  datatype Kind = MovieKind | SeriesKind

  /** The cache (and cache-key type) a listing uses. */
  function CacheName(kind: Kind): string {
    if kind == MovieKind then "movies" else "series"
  }

  function ListError(kind: Kind): string {
    if kind == MovieKind then MoviesError else SeriesError
  }

  // ---------------------------------------------------------------- request parameters

  datatype ParamValue = Number(n: int) | Joined(s: string)

  /** A query parameter, in the order the code adds it. */
  type Param = (string, ParamValue)

  /** `page` and `per_page`, then the year bounds when the range has two ends, then the
      comma-joined genres and keywords when there are any. */
  function RequestParams(page: int, filters: Filters): seq<Param> {
    FixedParams(page) + YearParams(filters) + ListParam("genres", filters.genres) + ListParam("keywords", filters.keywords)
  }

  /** The parameter groups of a request, in order. */
  function FixedParams(page: int): seq<Param> {
    [("page", Number(page)), ("per_page", Number(ItemsPerPage))]
  }

  function YearParams(filters: Filters): seq<Param> {
    if |filters.yearRange| == 2
    then [("year_from", Number(filters.yearRange[0])), ("year_to", Number(filters.yearRange[1]))]
    else []
  }

  function ListParam(name: string, values: seq<string>): seq<Param> {
    if |values| > 0 then [(name, Joined(Join(values, ",")))] else []
  }

  /** A name is looked up group by group. */
  lemma RequestParamsLookup(page: int, filters: Filters, name: string)
    ensures Lookup(RequestParams(page, filters), name) ==
      if Lookup(FixedParams(page), name).Some? then Lookup(FixedParams(page), name)
      else if Lookup(YearParams(filters), name).Some? then Lookup(YearParams(filters), name)
      else if Lookup(ListParam("genres", filters.genres), name).Some? then Lookup(ListParam("genres", filters.genres), name)
      else Lookup(ListParam("keywords", filters.keywords), name)
  {
    var fixed, years := FixedParams(page), YearParams(filters);
    var genres, keywords := ListParam("genres", filters.genres), ListParam("keywords", filters.keywords);
    assert RequestParams(page, filters) == fixed + (years + (genres + keywords));
    LookupAppend(fixed, years + (genres + keywords), name);
    LookupAppend(years, genres + keywords, name);
    LookupAppend(genres, keywords, name);
  }

  lemma LookupPair(x: Param, y: Param, name: string)
    ensures Lookup([x, y], name) == if x.0 == name then Some(x.1) else if y.0 == name then Some(y.1) else None
  {
    LookupSingle(y, name);
    assert [x, y][0] == x && [x, y][1..] == [y];
  }

  lemma LookupSingle(x: Param, name: string)
    ensures Lookup([x], name) == if x.0 == name then Some(x.1) else None
  {
    assert [x][1..] == [];
  }

  /** What each parameter group gives a name. */
  lemma GroupLookups(page: int, filters: Filters, name: string)
    ensures Lookup(FixedParams(page), name) ==
      if name == "page" then Some(Number(page)) else if name == "per_page" then Some(Number(ItemsPerPage)) else None
    ensures Lookup(YearParams(filters), name) ==
      if |filters.yearRange| != 2 then None
      else if name == "year_from" then Some(Number(filters.yearRange[0]))
      else if name == "year_to" then Some(Number(filters.yearRange[1]))
      else None
    ensures Lookup(ListParam("genres", filters.genres), name) ==
      if |filters.genres| > 0 && name == "genres" then Some(Joined(Join(filters.genres, ","))) else None
    ensures Lookup(ListParam("keywords", filters.keywords), name) ==
      if |filters.keywords| > 0 && name == "keywords" then Some(Joined(Join(filters.keywords, ","))) else None
  {
    LookupPair(("page", Number(page)), ("per_page", Number(ItemsPerPage)), name);
    if |filters.yearRange| == 2 {
      LookupPair(("year_from", Number(filters.yearRange[0])), ("year_to", Number(filters.yearRange[1])), name);
    }
    if |filters.genres| > 0 { LookupSingle(("genres", Joined(Join(filters.genres, ","))), name); }
    if |filters.keywords| > 0 { LookupSingle(("keywords", Joined(Join(filters.keywords, ","))), name); }
  }

  /** The request always carries the page and 18 per page; the year bounds exactly when the range
      has two ends; genres and keywords, comma-joined, exactly when given. */
  lemma RequestParamsContents(page: int, filters: Filters)
    ensures var p := RequestParams(page, filters);
      && Lookup(p, "page") == Some(Number(page))
      && Lookup(p, "per_page") == Some(Number(18))
      && Lookup(p, "year_from") == (if |filters.yearRange| == 2 then Some(Number(filters.yearRange[0])) else None)
      && Lookup(p, "year_to") == (if |filters.yearRange| == 2 then Some(Number(filters.yearRange[1])) else None)
      && Lookup(p, "genres") == (if |filters.genres| > 0 then Some(Joined(Join(filters.genres, ","))) else None)
      && Lookup(p, "keywords") == (if |filters.keywords| > 0 then Some(Joined(Join(filters.keywords, ","))) else None)
  {
    RequestParamsLookup(page, filters, "page");
    GroupLookups(page, filters, "page");
    RequestParamsLookup(page, filters, "per_page");
    GroupLookups(page, filters, "per_page");
    RequestParamsLookup(page, filters, "year_from");
    GroupLookups(page, filters, "year_from");
    RequestParamsLookup(page, filters, "year_to");
    GroupLookups(page, filters, "year_to");
    RequestParamsLookup(page, filters, "genres");
    GroupLookups(page, filters, "genres");
    RequestParamsLookup(page, filters, "keywords");
    GroupLookups(page, filters, "keywords");
  }

  // ---------------------------------------------------------------- all-movies / all-series pages

  /** The route query values the page loaders read. */
  datatype QueryParams = QueryParams(page: Option<string>, yearFrom: Option<string>, yearTo: Option<string>,
                                     genres: Option<string>, keywords: Option<string>)

  /** The data a page loader returns and caches. */
  datatype PageData = PageData(results: seq<Item>, page: int, totalPages: int, totalResults: int)

  datatype PageEntry = PageEntry(data: PageData, timestamp: int)

  /** A page loader's outcome: its data, or the `Error` it throws. */
  datatype PageOutcome = Loaded(data: PageData) | Thrown(message: string)

  function PagePath(kind: Kind): string {
    if kind == MovieKind then "/api/v1/all-movies" else "/api/v1/all-series"
  }

  function PageError(kind: Kind): string {
    if kind == MovieKind then AllMoviesError else AllSeriesError
  }

  function PageCachePrefix(kind: Kind): string {
    if kind == MovieKind then "allMovies_" else "allSeries_"
  }

  /** `prefix` (such as `&year_from=`) and the value when the value is truthy, else nothing. */
  function Segment(prefix: string, value: Option<string>): string {
    if JsTruthy(value) then prefix + value.value else ""
  }

  function PageHead(apiBase: string, kind: Kind, q: QueryParams): string {
    apiBase + PagePath(kind) + "?page=" + (if JsTruthy(q.page) then q.page.value else "1")
  }

  /** The page URL: `page || 1`, then the truthy filters in the order year_from, year_to,
      genres, keywords. */
  function PageUrl(apiBase: string, kind: Kind, q: QueryParams): string {
    PageHead(apiBase, kind, q)
    + Segment("&year_from=", q.yearFrom) + Segment("&year_to=", q.yearTo)
    + Segment("&genres=", q.genres) + Segment("&keywords=", q.keywords)
  }

  /** Without filters the URL is the endpoint and the page alone. */
  lemma PageUrlWithoutFilters(apiBase: string, kind: Kind, q: QueryParams)
    requires !JsTruthy(q.yearFrom) && !JsTruthy(q.yearTo) && !JsTruthy(q.genres) && !JsTruthy(q.keywords)
    ensures PageUrl(apiBase, kind, q) == apiBase + PagePath(kind) + "?page=" + (if JsTruthy(q.page) then q.page.value else "1")
  {
  }

  /** Every truthy filter appears in the URL as `&name=value`. */
  lemma PageUrlCarriesFilters(apiBase: string, kind: Kind, q: QueryParams)
    ensures JsTruthy(q.yearFrom) ==> Contains(PageUrl(apiBase, kind, q), "&year_from=" + q.yearFrom.value)
    ensures JsTruthy(q.yearTo) ==> Contains(PageUrl(apiBase, kind, q), "&year_to=" + q.yearTo.value)
    ensures JsTruthy(q.genres) ==> Contains(PageUrl(apiBase, kind, q), "&genres=" + q.genres.value)
    ensures JsTruthy(q.keywords) ==> Contains(PageUrl(apiBase, kind, q), "&keywords=" + q.keywords.value)
  {
    var head := PageHead(apiBase, kind, q);
    var y1, y2 := Segment("&year_from=", q.yearFrom), Segment("&year_to=", q.yearTo);
    var g, k := Segment("&genres=", q.genres), Segment("&keywords=", q.keywords);
    ContainsFivePieces(head, y1, y2, g, k);
  }

  /** The response defaults: `results || []`, `page || 1`, `total_pages || 0`, `total_results || 0`. */
  function PageDataFrom(response: PageResponse): (r: PageData)
    ensures r.results == response.results.GetOr([])
    ensures r.page == OrNumber(response.page, 1)
    ensures r.totalPages == OrNumber(response.totalPages, 0) && r.totalResults == OrNumber(response.totalResults, 0)
  {
    PageData(response.results.GetOr([]), OrNumber(response.page, 1), OrNumber(response.totalPages, 0),
             OrNumber(response.totalResults, 0))
  }

  // ---------------------------------------------------------------- the composable's state

  datatype CollectionState = CollectionState(
    shows: seq<Item>,
    loading: bool,
    error: Option<string>,
    currentPage: int,
    totalPages: int,
    totalResults: int,
    filters: Filters,
    movies: map<string, ListEntry>,
    series: map<string, ListEntry>,
    allMovies: map<string, PageEntry>,
    allSeries: map<string, PageEntry>)
  {
    function Lists(kind: Kind): map<string, ListEntry> {
      if kind == MovieKind then movies else series
    }

    function WithLists(kind: Kind, m: map<string, ListEntry>): CollectionState {
      if kind == MovieKind then this.(movies := m) else this.(series := m)
    }

    function Pages(kind: Kind): map<string, PageEntry> {
      if kind == MovieKind then allMovies else allSeries
    }

    function WithPages(kind: Kind, m: map<string, PageEntry>): CollectionState {
      if kind == MovieKind then this.(allMovies := m) else this.(allSeries := m)
    }
  }

  function InitialState(currentYear: int): CollectionState {
    CollectionState([], false, None, 1, 0, 0, DefaultFilters(currentYear), map[], map[], map[], map[])
  }

  /** The key a listing fetch reads and writes. */
  function ListKey(st: CollectionState, kind: Kind, stringify: Filters -> string): string {
    CacheKey(CacheName(kind), st.currentPage, stringify(st.filters))
  }

  /** fetchAllMovies / fetchAllSeries. */
  function FetchedList(st: CollectionState, kind: Kind, now: int, stringify: Filters -> string,
                       respond: (Kind, seq<Param>) -> Outcome<PageResponse>): CollectionState {
    var key := ListKey(st, kind, stringify);
    match FreshEntry(st.Lists(kind), key, now)
    case Some(e) => st.(shows := e.data, totalPages := e.totalPages, totalResults := e.totalResults)
    case None =>
      ListSettled(st.(loading := true, error := None), kind, key, respond(kind, RequestParams(st.currentPage, st.filters)), now)
  }

  /** The state once the listing request under `key` has settled: loading ends, and either the
      error is set or the response is shown and cached (the error was cleared before the request). */
  function ListSettled(st: CollectionState, kind: Kind, key: string, outcome: Outcome<PageResponse>, now: int): CollectionState {
    match outcome
    case Failed => st.(loading := false, error := Some(ListError(kind)))
    case Answered(response) =>
      var e := EntryFrom(response, now);
      st.(shows := e.data, totalPages := e.totalPages, totalResults := e.totalResults, loading := false)
        .WithLists(kind, st.Lists(kind)[key := e])
  }

  /** A fresh entry restores the listing from the cache; no request, and loading, error, page,
      filters and caches stay as they were. */
  lemma ListHitRestores(st: CollectionState, kind: Kind, now: int, stringify: Filters -> string,
                        respond: (Kind, seq<Param>) -> Outcome<PageResponse>,
                        other: (Kind, seq<Param>) -> Outcome<PageResponse>)
    requires FreshEntry(st.Lists(kind), ListKey(st, kind, stringify), now).Some?
    ensures var e := st.Lists(kind)[ListKey(st, kind, stringify)];
      FetchedList(st, kind, now, stringify, respond) == st.(shows := e.data, totalPages := e.totalPages, totalResults := e.totalResults)
    ensures FetchedList(st, kind, now, stringify, respond) == FetchedList(st, kind, now, stringify, other)
  {
  }

  /** A miss that succeeds shows the response with its defaults and caches it under the key;
      one that fails sets only the error; loading ends false either way. */
  lemma ListMissOutcomes(st: CollectionState, kind: Kind, now: int, stringify: Filters -> string,
                         respond: (Kind, seq<Param>) -> Outcome<PageResponse>)
    requires FreshEntry(st.Lists(kind), ListKey(st, kind, stringify), now).None?
    ensures var r := FetchedList(st, kind, now, stringify, respond);
      var key := ListKey(st, kind, stringify);
      match respond(kind, RequestParams(st.currentPage, st.filters))
      case Failed => r == st.(loading := false, error := Some(ListError(kind)))
      case Answered(response) =>
        && !r.loading && r.error.None?
        && r.shows == response.results.GetOr([])
        && r.totalPages == OrNumber(response.totalPages, 0) && r.totalResults == OrNumber(response.totalResults, 0)
        && r.Lists(kind) == st.Lists(kind)[key := EntryFrom(response, now)]
        && r.currentPage == st.currentPage && r.filters == st.filters
  {
  }

  /** Within thirty minutes of a successful fetch, fetching the same page with the same filters
      again is served from the cache and changes nothing. */
  lemma ListRefetchIsCached(st: CollectionState, kind: Kind, now: int, later: int, stringify: Filters -> string,
                            respond: (Kind, seq<Param>) -> Outcome<PageResponse>,
                            next: (Kind, seq<Param>) -> Outcome<PageResponse>)
    requires FreshEntry(st.Lists(kind), ListKey(st, kind, stringify), now).None?
    requires respond(kind, RequestParams(st.currentPage, st.filters)).Answered?
    requires later - now < CacheExpiration
    ensures var after := FetchedList(st, kind, now, stringify, respond);
      FetchedList(after, kind, later, stringify, next) == after
  {
    FetchedListKeepsPageAndFilters(st, kind, now, stringify, respond);
  }

  /** A listing fetch never changes the page or the filters, nor the other caches. */
  lemma FetchedListKeepsPageAndFilters(st: CollectionState, kind: Kind, now: int, stringify: Filters -> string,
                                       respond: (Kind, seq<Param>) -> Outcome<PageResponse>)
    ensures var r := FetchedList(st, kind, now, stringify, respond);
      && r.currentPage == st.currentPage && r.filters == st.filters
      && r.allMovies == st.allMovies && r.allSeries == st.allSeries
      && r.Lists(if kind == MovieKind then SeriesKind else MovieKind) == st.Lists(if kind == MovieKind then SeriesKind else MovieKind)
  {
    var key := ListKey(st, kind, stringify);
    if FreshEntry(st.Lists(kind), key, now).None? {
      match respond(kind, RequestParams(st.currentPage, st.filters)) {
        case Failed =>
        case Answered(response) =>
          var e := EntryFrom(response, now);
          var mid := st.(shows := e.data, totalPages := e.totalPages, totalResults := e.totalResults, loading := false, error := None);
          assert FetchedList(st, kind, now, stringify, respond) == mid.WithLists(kind, st.Lists(kind)[key := e]);
      }
    }
  }

  /** fetchAllMoviesPage / fetchAllSeriesPage: a fresh entry answers without a request;
      otherwise the page is requested, cached and returned, or the error is thrown. */
  function FetchedPage(st: CollectionState, kind: Kind, q: QueryParams, queryJson: string, now: int, apiBase: string,
                       respond: string -> Outcome<PageResponse>): (CollectionState, PageOutcome) {
    var key := PageCachePrefix(kind) + queryJson;
    if key in st.Pages(kind) && Fresh(st.Pages(kind)[key].timestamp, now, CacheExpiration)
    then (st, Loaded(st.Pages(kind)[key].data))
    else
      match respond(PageUrl(apiBase, kind, q))
      case Failed => (st, Thrown(PageError(kind)))
      case Answered(response) =>
        var data := PageDataFrom(response);
        (st.WithPages(kind, st.Pages(kind)[key := PageEntry(data, now)]), Loaded(data))
  }

  /** A page loader touches nothing but its own cache, and writes it only on success. */
  lemma PageLoaderTouchesOnlyItsCache(st: CollectionState, kind: Kind, q: QueryParams, queryJson: string, now: int,
                                      apiBase: string, respond: string -> Outcome<PageResponse>)
    ensures var (r, outcome) := FetchedPage(st, kind, q, queryJson, now, apiBase, respond);
      && r.WithPages(kind, st.Pages(kind)) == st
      && (outcome.Thrown? ==> r == st && outcome.message == PageError(kind))
      && (r != st ==> outcome.Loaded? && r.Pages(kind) == st.Pages(kind)[PageCachePrefix(kind) + queryJson := PageEntry(outcome.data, now)])
  {
    var key := PageCachePrefix(kind) + queryJson;
    if !(key in st.Pages(kind) && Fresh(st.Pages(kind)[key].timestamp, now, CacheExpiration)) {
      match respond(PageUrl(apiBase, kind, q))
      case Failed =>
      case Answered(response) =>
        var m := st.Pages(kind)[key := PageEntry(PageDataFrom(response), now)];
        assert st.WithPages(kind, m).Pages(kind) == m;
        assert st.WithPages(kind, m).WithPages(kind, st.Pages(kind)) == st;
    }
  }

  /** A page loaded successfully is served again, unchanged, for thirty minutes. */
  lemma PageRefetchIsCached(st: CollectionState, kind: Kind, q: QueryParams, queryJson: string, now: int, later: int,
                            apiBase: string, respond: string -> Outcome<PageResponse>, next: string -> Outcome<PageResponse>)
    requires FetchedPage(st, kind, q, queryJson, now, apiBase, respond).1.Loaded?
    requires later - now < CacheExpiration
    requires var key := PageCachePrefix(kind) + queryJson;
      !(key in st.Pages(kind) && Fresh(st.Pages(kind)[key].timestamp, now, CacheExpiration))
      || st.Pages(kind)[key].timestamp >= now
    ensures var (after, outcome) := FetchedPage(st, kind, q, queryJson, now, apiBase, respond);
      FetchedPage(after, kind, q, queryJson, later, apiBase, next) == (after, outcome)
  {
  }

  // ---------------------------------------------------------------- filters and pages

  /** updateFilters: the provided fields replaced, the page back to 1 when asked. */
  function FiltersUpdated(st: CollectionState, u: FilterUpdate, resetPage: bool): CollectionState {
    st.(filters := WithUpdate(st.filters, u), currentPage := if resetPage then 1 else st.currentPage)
  }

  /** resetFilters. */
  function FiltersReset(st: CollectionState, currentYear: int): CollectionState {
    st.(filters := DefaultFilters(currentYear), currentPage := 1)
  }

  /** goToPage. */
  function PageChanged(st: CollectionState, page: int): CollectionState {
    if InRange(page, st.totalPages) then st.(currentPage := page) else st
  }

  /** An update changes only the fields it provides and the page as asked. */
  lemma UpdateChangesOnlyWhatIsGiven(st: CollectionState, u: FilterUpdate, resetPage: bool)
    ensures var r := FiltersUpdated(st, u, resetPage);
      && r.(filters := st.filters, currentPage := st.currentPage) == st
      && (u.yearRange.None? ==> r.filters.yearRange == st.filters.yearRange)
      && (u.genres.None? ==> r.filters.genres == st.filters.genres)
      && (u.keywords.None? ==> r.filters.keywords == st.filters.keywords)
      && r.currentPage == (if resetPage then 1 else st.currentPage)
  {
  }

  /** A reset forgets every earlier update. */
  lemma ResetForgetsUpdates(st: CollectionState, u: FilterUpdate, resetPage: bool, currentYear: int)
    ensures FiltersReset(FiltersUpdated(st, u, resetPage), currentYear) == FiltersReset(st, currentYear)
  {
  }

  /** goToPage moves exactly to pages inside `[1, totalPages]` and otherwise does nothing. */
  lemma GoToPageWithinRange(st: CollectionState, page: int)
    ensures PageChanged(st, page).currentPage == page <==> InRange(page, st.totalPages) || st.currentPage == page
    ensures !InRange(page, st.totalPages) ==> PageChanged(st, page) == st
  {
  }

  /** The page never drops below 1: every operation keeps `currentPage >= 1`. */
  lemma PageStaysPositive(st: CollectionState, kind: Kind, now: int, stringify: Filters -> string,
                          respond: (Kind, seq<Param>) -> Outcome<PageResponse>, u: FilterUpdate, resetPage: bool,
                          currentYear: int, page: int)
    requires st.currentPage >= 1
    ensures FetchedList(st, kind, now, stringify, respond).currentPage >= 1
    ensures FiltersUpdated(st, u, resetPage).currentPage >= 1
    ensures FiltersReset(st, currentYear).currentPage >= 1
    ensures PageChanged(st, page).currentPage >= 1
  {
    FetchedListKeepsPageAndFilters(st, kind, now, stringify, respond);
  }

  class Collection {
    var shows: seq<Item>
    var loading: bool
    var error: Option<string>
    var currentPage: int
    var totalPages: int
    var totalResults: int
    var filters: Filters
    var movies: map<string, ListEntry>
    var series: map<string, ListEntry>
    var allMovies: map<string, PageEntry>
    var allSeries: map<string, PageEntry>

    function State(): CollectionState
      reads this
    {
      CollectionState(shows, loading, error, currentPage, totalPages, totalResults, filters, movies, series, allMovies, allSeries)
    }

    constructor (currentYear: int)
      ensures State() == InitialState(currentYear)
    {
      shows := [];
      loading := false;
      error := None;
      currentPage := 1;
      totalPages := 0;
      totalResults := 0;
      filters := DefaultFilters(currentYear);
      movies := map[];
      series := map[];
      allMovies := map[];
      allSeries := map[];
    }

    /** The query parameters, added one by one as the code adds them. */
    method BuildParams() returns (params: seq<Param>)
      ensures params == RequestParams(currentPage, filters)
    {
      params := [("page", Number(currentPage)), ("per_page", Number(ItemsPerPage))];
      if |filters.yearRange| == 2 {
        params := params + [("year_from", Number(filters.yearRange[0]))];
        params := params + [("year_to", Number(filters.yearRange[1]))];
      }
      if |filters.genres| > 0 {
        params := params + [("genres", Joined(Join(filters.genres, ",")))];
      }
      if |filters.keywords| > 0 {
        params := params + [("keywords", Joined(Join(filters.keywords, ",")))];
      }
    }

    method FetchList(kind: Kind, now: int, stringify: Filters -> string,
                     respond: (Kind, seq<Param>) -> Outcome<PageResponse>)
      modifies this
      ensures State() == FetchedList(old(State()), kind, now, stringify, respond)
    {
      var key := CacheKey(CacheName(kind), currentPage, stringify(filters));
      var cache := if kind == MovieKind then movies else series;
      if key in cache && cache[key].timestamp > now - CacheExpiration {
        shows := cache[key].data;
        totalPages := cache[key].totalPages;
        totalResults := cache[key].totalResults;
        return;
      }
      ghost var st := State();
      loading := true;
      error := None;
      assert State() == st.(loading := true, error := None);
      var params := BuildParams();
      assert params == RequestParams(st.currentPage, st.filters);
      SettleList(kind, key, respond(kind, params), now);
    }

    /** The awaited request settles: the listing and its cache entry, or the error; then
        loading ends. */
    method SettleList(kind: Kind, key: string, outcome: Outcome<PageResponse>, now: int)
      modifies this
      ensures State() == ListSettled(old(State()), kind, key, outcome, now)
    {
      match outcome {
        case Failed =>
          error := Some(ListError(kind));
        case Answered(response) =>
          shows := response.results.GetOr([]);
          totalPages := OrNumber(response.totalPages, 0);
          totalResults := OrNumber(response.totalResults, 0);
          var entry := ListEntry(shows, totalPages, totalResults, now);
          assert entry == EntryFrom(response, now);
          if kind == MovieKind {
            movies := movies[key := entry];
          } else {
            series := series[key := entry];
          }
      }
      loading := false;
    }

    method FetchAllMovies(now: int, stringify: Filters -> string, respond: (Kind, seq<Param>) -> Outcome<PageResponse>)
      modifies this
      ensures State() == FetchedList(old(State()), MovieKind, now, stringify, respond)
    {
      FetchList(MovieKind, now, stringify, respond);
    }

    method FetchAllSeries(now: int, stringify: Filters -> string, respond: (Kind, seq<Param>) -> Outcome<PageResponse>)
      modifies this
      ensures State() == FetchedList(old(State()), SeriesKind, now, stringify, respond)
    {
      FetchList(SeriesKind, now, stringify, respond);
    }

    /** The page URL, extended with `+=` filter by filter. */
    static method BuildPageUrl(apiBase: string, kind: Kind, q: QueryParams) returns (url: string)
      ensures url == PageUrl(apiBase, kind, q)
    {
      url := apiBase + PagePath(kind) + "?page=" + (if JsTruthy(q.page) then q.page.value else "1");
      ghost var built := PageHead(apiBase, kind, q);
      assert url == built;
      if JsTruthy(q.yearFrom) {
        var piece := "&year_from=" + q.yearFrom.value;
        url := url + piece;
      }
      built := built + Segment("&year_from=", q.yearFrom);
      assert url == built;
      if JsTruthy(q.yearTo) {
        var piece := "&year_to=" + q.yearTo.value;
        url := url + piece;
      }
      built := built + Segment("&year_to=", q.yearTo);
      assert url == built;
      if JsTruthy(q.genres) {
        var piece := "&genres=" + q.genres.value;
        url := url + piece;
      }
      built := built + Segment("&genres=", q.genres);
      assert url == built;
      if JsTruthy(q.keywords) {
        var piece := "&keywords=" + q.keywords.value;
        url := url + piece;
      }
      built := built + Segment("&keywords=", q.keywords);
      assert url == built;
    }

    method FetchPage(kind: Kind, q: QueryParams, queryJson: string, now: int, apiBase: string,
                     respond: string -> Outcome<PageResponse>) returns (outcome: PageOutcome)
      modifies this
      ensures (State(), outcome) == FetchedPage(old(State()), kind, q, queryJson, now, apiBase, respond)
    {
      var key := PageCachePrefix(kind) + queryJson;
      var cache := if kind == MovieKind then allMovies else allSeries;
      if key in cache && cache[key].timestamp > now - CacheExpiration {
        return Loaded(cache[key].data);
      }
      var url := BuildPageUrl(apiBase, kind, q);
      match respond(url) {
        case Failed =>
          outcome := Thrown(PageError(kind));
        case Answered(response) =>
          var data := PageData(response.results.GetOr([]), OrNumber(response.page, 1), OrNumber(response.totalPages, 0),
                               OrNumber(response.totalResults, 0));
          if kind == MovieKind {
            allMovies := allMovies[key := PageEntry(data, now)];
          } else {
            allSeries := allSeries[key := PageEntry(data, now)];
          }
          outcome := Loaded(data);
      }
    }

    method FetchAllMoviesPage(q: QueryParams, queryJson: string, now: int, apiBase: string,
                              respond: string -> Outcome<PageResponse>) returns (outcome: PageOutcome)
      modifies this
      ensures (State(), outcome) == FetchedPage(old(State()), MovieKind, q, queryJson, now, apiBase, respond)
    {
      outcome := FetchPage(MovieKind, q, queryJson, now, apiBase, respond);
    }

    method FetchAllSeriesPage(q: QueryParams, queryJson: string, now: int, apiBase: string,
                              respond: string -> Outcome<PageResponse>) returns (outcome: PageOutcome)
      modifies this
      ensures (State(), outcome) == FetchedPage(old(State()), SeriesKind, q, queryJson, now, apiBase, respond)
    {
      outcome := FetchPage(SeriesKind, q, queryJson, now, apiBase, respond);
    }

    method UpdateFilters(u: FilterUpdate, resetPage: bool)
      modifies this
      ensures State() == FiltersUpdated(old(State()), u, resetPage)
    {
      if u.yearRange.Some? { filters := filters.(yearRange := u.yearRange.value); }
      if u.genres.Some? { filters := filters.(genres := u.genres.value); }
      if u.keywords.Some? { filters := filters.(keywords := u.keywords.value); }
      if resetPage {
        currentPage := 1;
      }
    }

    method ResetFilters(currentYear: int)
      modifies this
      ensures State() == FiltersReset(old(State()), currentYear)
    {
      filters := DefaultFilters(currentYear);
      currentPage := 1;
    }

    method GoToPage(page: int)
      modifies this
      ensures State() == PageChanged(old(State()), page)
    {
      if page >= 1 && page <= totalPages {
        currentPage := page;
      }
    }
  }
}
