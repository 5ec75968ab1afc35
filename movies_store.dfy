/**
  The movies store: per-genre and per-keyword result caches guarded by one
  store-wide timestamp valid for an hour, the popular slider content, and
  the progressive loading of further home-page sections. An awaited request
  is an `Outcome`; the present time is a parameter.

  Requests started together (the three section loads) are modelled as they
  run in JavaScript: every request is started — its loading flag raised and
  the error cleared — before any of them completes. Completions are applied
  in source order. The movie-genre and tv-genre loads write to the same
  cache, so when a movie genre is itself spelled `tv-` followed by a tv
  genre the later completion wins; another completion order could then end
  in a different state.
 */
module MoviesStore {
  import opened Wrappers
  import opened Frontend

  const CacheExpiration := 60 * 60 * 1000
  const FetchMoviesError := "Error fetching movies. Please try again later."
  const PopularError := "Error fetching popular content. Please try again later."

  /** A cached `results` value: undefined when the response carried none. */
  type Results = Option<seq<Item>>

  datatype Section = GenreSection | KeywordSection

  /** The store's state, field by field. */
  datatype StoreState = StoreState(
    moviesByGenre: map<string, Results>,
    moviesByKeyword: map<string, Results>,
    popularContent: seq<Item>,
    loadingGenres: map<string, bool>,
    loadingKeywords: map<string, bool>,
    loadingPopular: bool,
    lastUpdated: Option<int>,
    error: Option<string>,
    loadedAllContent: bool,
    loadingAdditionalContent: bool,
    newSectionType: Option<string>,
    newSectionId: Option<string>)
  {
    function Entries(section: Section): map<string, Results> {
      if section == GenreSection then moviesByGenre else moviesByKeyword
    }

    function WithEntries(section: Section, m: map<string, Results>): StoreState {
      if section == GenreSection then this.(moviesByGenre := m) else this.(moviesByKeyword := m)
    }

    function WithLoading(section: Section, key: string, b: bool): StoreState {
      if section == GenreSection then this.(loadingGenres := loadingGenres[key := b])
      else this.(loadingKeywords := loadingKeywords[key := b])
    }
  }

  const InitialState := StoreState(map[], map[], [], map[], map[], false, None, None, false, false, None, None)

  /** isCacheValid: a falsy `lastUpdated` is never valid; otherwise valid for an hour. */
  predicate CacheValid(st: StoreState, now: int) {
    st.lastUpdated.Some? && st.lastUpdated.value != 0 && now - st.lastUpdated.value < CacheExpiration
  }

  /** The cached array a fetch returns without a request: present (any array is truthy) and valid. */
  function CacheHit(st: StoreState, section: Section, key: string, now: int): Results {
    if key in st.Entries(section) && st.Entries(section)[key].Some? && CacheValid(st, now)
    then st.Entries(section)[key] else None
  }

  /** The synchronous start of a fetch: its loading flag raised, the error cleared. */
  function Began(st: StoreState, section: Section, key: string): StoreState {
    st.WithLoading(section, key, true).(error := None)
  }

  /** A fetch's completion: a success stores the results, a failure sets the error and answers
      `[]`; the loading flag goes down either way. */
  function Completed(st: StoreState, section: Section, key: string, outcome: Outcome<Results>): (StoreState, Results) {
    match outcome
    case Failed => (st.WithLoading(section, key, false).(error := Some(FetchMoviesError)), Some([]))
    case Answered(results) =>
      (st.WithEntries(section, st.Entries(section)[key := results]).WithLoading(section, key, false), results)
  }

  /** fetchMoviesByGenre / fetchMoviesByKeyword. */
  function Fetched(st: StoreState, section: Section, key: string, now: int, outcome: Outcome<Results>): (StoreState, Results) {
    var hit := CacheHit(st, section, key, now);
    if hit.Some? then (st, hit) else Completed(Began(st, section, key), section, key, outcome)
  }

  /** A hit makes no request and changes nothing. */
  lemma HitChangesNothing(st: StoreState, section: Section, key: string, now: int, outcome: Outcome<Results>)
    requires CacheHit(st, section, key, now).Some?
    ensures Fetched(st, section, key, now, outcome) == (st, st.Entries(section)[key])
    ensures forall other: Outcome<Results> :: Fetched(st, section, key, now, other) == Fetched(st, section, key, now, outcome)
  {
  }

  /** A miss that succeeds caches the results under the key; one that fails answers `[]`, sets
      the error and leaves both caches as they were; the loading flag ends false. */
  lemma MissOutcomes(st: StoreState, section: Section, key: string, now: int, outcome: Outcome<Results>)
    requires CacheHit(st, section, key, now).None?
    ensures var (after, results) := Fetched(st, section, key, now, outcome);
      && (section == GenreSection ==> after.loadingGenres[key] == false)
      && (section == KeywordSection ==> after.loadingKeywords[key] == false)
      && (outcome.Failed? ==> results == Some([]) && after.error == Some(FetchMoviesError)
                              && after.moviesByGenre == st.moviesByGenre && after.moviesByKeyword == st.moviesByKeyword)
      && (outcome.Answered? ==> results == outcome.value && after.error.None?
                                && after.Entries(section) == st.Entries(section)[key := outcome.value])
  {
  }

  // ---------------------------------------------------------------- popular content

  /** `slice(0, n)`. */
  function Take<T>(s: seq<T>, n: nat): (r: seq<T>)
    ensures |r| == if |s| <= n then |s| else n
    ensures r == s[..|r|]
  {
    if |s| <= n then s else s[..n]
  }

  function WithType(items: seq<Item>, t: string): (r: seq<Item>)
    ensures |r| == |items|
    ensures forall k :: 0 <= k < |r| ==> r[k] == items[k].(itemType := Some(t))
  {
    if items == [] then [] else [items[0].(itemType := Some(t))] + WithType(items[1..], t)
  }

  predicate SortedByPopularity(s: seq<Item>) {
    forall i, j :: 0 <= i < j < |s| ==> s[i].popularity >= s[j].popularity
  }

  /** Inserting before the first strictly less popular item keeps equal items in input order. */
  function Insert(x: Item, s: seq<Item>): (r: seq<Item>)
    ensures |r| == |s| + 1
  {
    if s == [] || x.popularity >= s[0].popularity then [x] + s
    else [s[0]] + Insert(x, s[1..])
  }

  /** Insertion adds exactly the item. */
  lemma {:induction false} InsertAddsItem(x: Item, s: seq<Item>)
    ensures multiset(Insert(x, s)) == multiset(s) + multiset{x}
  {
    if s != [] && x.popularity < s[0].popularity {
      assert s == [s[0]] + s[1..];
      InsertAddsItem(x, s[1..]);
    }
  }

  /** A bound on the popularity of every item survives a permutation. */
  lemma PermutationBounded(a: seq<Item>, b: seq<Item>, bound: int)
    requires multiset(a) == multiset(b)
    requires forall k :: 0 <= k < |a| ==> a[k].popularity <= bound
    ensures forall k :: 0 <= k < |b| ==> b[k].popularity <= bound
  {
    forall k | 0 <= k < |b| ensures b[k].popularity <= bound {
      assert b[k] in multiset(a);
      var j :| 0 <= j < |a| && a[j] == b[k];
    }
  }

  /** A sorted list under a head at least as popular as all of it is sorted. */
  lemma ConsSorted(h: Item, rest: seq<Item>)
    requires SortedByPopularity(rest)
    requires forall k :: 0 <= k < |rest| ==> rest[k].popularity <= h.popularity
    ensures SortedByPopularity([h] + rest)
  {
    var r := [h] + rest;
    forall i, j | 0 <= i < j < |r| ensures r[i].popularity >= r[j].popularity {
      assert r[j] == rest[j - 1];
      if i > 0 { assert r[i] == rest[i - 1]; }
    }
  }

  /** Insertion into a sorted list keeps it sorted. */
  lemma {:induction false} InsertKeepsOrder(x: Item, s: seq<Item>)
    requires SortedByPopularity(s)
    ensures SortedByPopularity(Insert(x, s))
  {
    if s == [] || x.popularity >= s[0].popularity {
      ConsSorted(x, s);
    } else {
      var tail := s[1..];
      assert forall k :: 0 <= k < |tail| ==> tail[k] == s[k + 1];
      InsertKeepsOrder(x, tail);
      InsertAddsItem(x, tail);
      assert multiset(tail + [x]) == multiset(Insert(x, tail));
      assert forall k :: 0 <= k < |tail + [x]| ==> (tail + [x])[k].popularity <= s[0].popularity;
      PermutationBounded(tail + [x], Insert(x, tail), s[0].popularity);
      ConsSorted(s[0], Insert(x, tail));
    }
  }

  /** The stable descending sort `sort((a, b) => b.popularity - a.popularity)`. */
  function SortByPopularity(s: seq<Item>): (r: seq<Item>)
    ensures |r| == |s|
  {
    if s == [] then [] else Insert(s[0], SortByPopularity(s[1..]))
  }

  /** The sort orders by popularity, most popular first, and is a permutation of its input. */
  lemma {:induction false} SortByPopularitySorts(s: seq<Item>)
    ensures SortedByPopularity(SortByPopularity(s))
    ensures multiset(SortByPopularity(s)) == multiset(s)
  {
    if s != [] {
      assert s == [s[0]] + s[1..];
      SortByPopularitySorts(s[1..]);
      InsertKeepsOrder(s[0], SortByPopularity(s[1..]));
      InsertAddsItem(s[0], SortByPopularity(s[1..]));
    }
  }

  /** The items of the given popularity, in their order. */
  function WithPopularity(s: seq<Item>, p: int): (r: seq<Item>)
    ensures |r| <= |s|
  {
    if s == [] then [] else (if s[0].popularity == p then [s[0]] else []) + WithPopularity(s[1..], p)
  }

  /** One step of WithPopularity. */
  lemma WithPopularityCons(h: Item, t: seq<Item>, p: int)
    ensures WithPopularity([h] + t, p) == (if h.popularity == p then [h] else []) + WithPopularity(t, p)
  {
    assert ([h] + t)[0] == h && ([h] + t)[1..] == t;
  }

  /** Insertion puts the item ahead of the items as popular as it. */
  lemma {:induction false} InsertKeepsTies(x: Item, s: seq<Item>, p: int)
    ensures WithPopularity(Insert(x, s), p) == (if x.popularity == p then [x] else []) + WithPopularity(s, p)
  {
    var mine := if x.popularity == p then [x] else [];
    if s == [] || x.popularity >= s[0].popularity {
      WithPopularityCons(x, s, p);
    } else {
      var head := if s[0].popularity == p then [s[0]] else [];
      assert head == [] || mine == [];
      calc {
        WithPopularity(Insert(x, s), p);
        WithPopularity([s[0]] + Insert(x, s[1..]), p);
        { WithPopularityCons(s[0], Insert(x, s[1..]), p); }
        head + WithPopularity(Insert(x, s[1..]), p);
        { InsertKeepsTies(x, s[1..], p); }
        head + (mine + WithPopularity(s[1..], p));
        { assert head + mine == mine + head; }
        mine + (head + WithPopularity(s[1..], p));
        { assert s == [s[0]] + s[1..]; WithPopularityCons(s[0], s[1..], p); }
        mine + WithPopularity(s, p);
      }
    }
  }

  /** The sort is stable: items of equal popularity keep their input order. */
  lemma {:induction false} SortIsStable(s: seq<Item>, p: int)
    ensures WithPopularity(SortByPopularity(s), p) == WithPopularity(s, p)
  {
    if s != [] {
      SortIsStable(s[1..], p);
      InsertKeepsTies(s[0], SortByPopularity(s[1..]), p);
    }
  }

  /** fetchPopularContent's merge: the top three of each list, typed, most popular first. */
  function TopPopular(movies: Results, series: Results): (r: seq<Item>)
    ensures |r| <= 6
  {
    SortByPopularity(WithType(Take(movies.GetOr([]), 3), "movie") + WithType(Take(series.GetOr([]), 3), "series"))
  }

  /** Among equally popular items the merge keeps the movies' order, then the series'. */
  lemma TopPopularKeepsTies(movies: Results, series: Results, p: int)
    ensures WithPopularity(TopPopular(movies, series), p) ==
      WithPopularity(WithType(Take(movies.GetOr([]), 3), "movie") + WithType(Take(series.GetOr([]), 3), "series"), p)
  {
    SortIsStable(WithType(Take(movies.GetOr([]), 3), "movie") + WithType(Take(series.GetOr([]), 3), "series"), p);
  }

  predicate AllTyped(s: seq<Item>) {
    forall k :: 0 <= k < |s| ==> s[k].itemType == Some("movie") || s[k].itemType == Some("series")
  }

  lemma PermutationKeepsTyped(a: seq<Item>, b: seq<Item>)
    requires multiset(a) == multiset(b) && AllTyped(a)
    ensures AllTyped(b)
  {
    forall k | 0 <= k < |b| ensures b[k].itemType == Some("movie") || b[k].itemType == Some("series") {
      assert b[k] in multiset(b);
      assert b[k] in a;
    }
  }

  /** At most three movies and three series, all typed, sorted, and exactly the leading items of
      each list. */
  lemma TopPopularShape(movies: Results, series: Results)
    ensures var r := TopPopular(movies, series);
      && |r| <= 6
      && SortedByPopularity(r)
      && multiset(r) == multiset(WithType(Take(movies.GetOr([]), 3), "movie")) + multiset(WithType(Take(series.GetOr([]), 3), "series"))
      && AllTyped(r)
  {
    var m: seq<Item> := WithType(Take(movies.GetOr([]), 3), "movie");
    var s: seq<Item> := WithType(Take(series.GetOr([]), 3), "series");
    var both: seq<Item> := m + s;
    assert AllTyped(both) by {
      forall k | 0 <= k < |both| ensures both[k].itemType == Some("movie") || both[k].itemType == Some("series") {
        if k < |m| { assert both[k] == m[k]; } else { assert both[k] == s[k - |m|]; }
      }
    }
    SortByPopularitySorts(both);
    assert |TopPopular(movies, series)| == |multiset(TopPopular(movies, series))| == |multiset(both)| == |both|;
    PermutationKeepsTyped(both, TopPopular(movies, series));
  }

  /** fetchPopularContent: a non-empty popular list with a valid cache is returned as it is. */
  function PopularFetched(st: StoreState, now: int, outcome: Outcome<(Results, Results)>): (StoreState, seq<Item>) {
    if |st.popularContent| > 0 && CacheValid(st, now) then (st, st.popularContent)
    else
      match outcome
      case Failed => (st.(loadingPopular := false, error := Some(PopularError)), [])
      case Answered((movies, series)) =>
        var top := TopPopular(movies, series);
        (st.(loadingPopular := false, error := None, popularContent := top, lastUpdated := Some(now)), top)
  }

  /** A refreshed popular list restarts the store-wide hour. */
  lemma PopularRefreshValidates(st: StoreState, now: int, movies: Results, series: Results)
    requires now != 0
    ensures CacheValid(PopularFetched(st, now, Answered((movies, series))).0, now)
  {
  }

  // ---------------------------------------------------------------- additional sections

  /** The candidates not already used as keys, `prefix` prepended for the comparison. */
  function Unused(candidates: seq<string>, used: map<string, Results>, prefix: string): (r: seq<string>)
    ensures |r| <= |candidates|
    ensures forall k :: 0 <= k < |r| ==> r[k] in candidates && prefix + r[k] !in used
    ensures forall k :: 0 <= k < |candidates| && prefix + candidates[k] !in used ==> candidates[k] in r
  {
    if candidates == [] then []
    else
      var rest := Unused(candidates[1..], used, prefix);
      assert forall k :: 1 <= k < |candidates| ==> candidates[k] == candidates[1..][k - 1];
      if prefix + candidates[0] !in used then [candidates[0]] + rest else rest
  }

  /** The first available entry of a category, if any. */
  function FirstUnused(candidates: seq<string>, used: map<string, Results>, prefix: string): (r: Option<string>)
    ensures r.Some? ==> r.value in candidates && prefix + r.value !in used
    ensures r.None? <==> forall k :: 0 <= k < |candidates| ==> prefix + candidates[k] in used
    ensures r.Some? ==> exists k :: 0 <= k < |candidates| && candidates[k] == r.value
                          && forall j :: 0 <= j < k ==> prefix + candidates[j] in used
  {
    var u := Unused(candidates, used, prefix);
    if u == [] then None
    else
      FirstUnusedIsFirst(candidates, used, prefix);
      Some(u[0])
  }

  lemma {:induction false} FirstUnusedIsFirst(candidates: seq<string>, used: map<string, Results>, prefix: string)
    requires Unused(candidates, used, prefix) != []
    ensures exists k :: 0 <= k < |candidates| && candidates[k] == Unused(candidates, used, prefix)[0]
                          && forall j :: 0 <= j < k ==> prefix + candidates[j] in used
  {
    if prefix + candidates[0] !in used {
      assert candidates[0] == Unused(candidates, used, prefix)[0];
    } else {
      FirstUnusedIsFirst(candidates[1..], used, prefix);
      var k :| 0 <= k < |candidates[1..]| && candidates[1..][k] == Unused(candidates[1..], used, prefix)[0]
                && forall j :: 0 <= j < k ==> prefix + candidates[1..][j] in used;
      assert candidates[k + 1] == candidates[1..][k];
      forall j | 0 <= j < k + 1 ensures prefix + candidates[j] in used {
        if j > 0 { assert candidates[j] == candidates[1..][j - 1]; }
      }
    }
  }

  /** A completed section load keeps its results only when there are some. */
  function Settled(st: StoreState, section: Section, key: string, outcome: Outcome<Results>): StoreState {
    var (after, results) := Completed(st, section, key, outcome);
    if results.Some? && |results.value| > 0 then after
    else after.WithEntries(section, after.Entries(section) - {key})
  }

  function BeganIf(st: StoreState, section: Section, key: Option<string>): StoreState {
    if key.Some? then Began(st, section, key.value) else st
  }

  function SettledIf(st: StoreState, section: Section, key: Option<string>, outcome: Outcome<Results>): StoreState {
    if key.Some? then Settled(st, section, key.value, outcome) else st
  }

  function TvKey(genre: Option<string>): Option<string> {
    if genre.Some? then Some("tv-" + genre.value) else None
  }

  /** The section each category loads: its first unused entry, TV genres keyed as `tv-` + genre. */
  function Selection(st: StoreState, movieGenres: seq<string>, tvGenres: seq<string>, keywords: seq<string>)
    : (Option<string>, Option<string>, Option<string>) {
    (FirstUnused(movieGenres, st.moviesByGenre, ""), TvKey(FirstUnused(tvGenres, st.moviesByGenre, "tv-")),
     FirstUnused(keywords, st.moviesByKeyword, ""))
  }

  /** The selected loads started together and settled, then the timestamp renewed. */
  function LoadedSections(st: StoreState, movie: Option<string>, tv: Option<string>, keyword: Option<string>, now: int,
                          movieOutcome: Outcome<Results>, tvOutcome: Outcome<Results>, keywordOutcome: Outcome<Results>): StoreState {
    var started := BeganIf(BeganIf(BeganIf(st, GenreSection, movie), GenreSection, tv), KeywordSection, keyword);
    var settled := SettledIf(SettledIf(SettledIf(started, GenreSection, movie, movieOutcome), GenreSection, tv, tvOutcome),
                             KeywordSection, keyword, keywordOutcome);
    settled.(lastUpdated := Some(now))
  }

  /** loadAdditionalContent. */
  function LoadedAdditional(st: StoreState, movieGenres: seq<string>, tvGenres: seq<string>, keywords: seq<string>,
                            now: int, movieOutcome: Outcome<Results>, tvOutcome: Outcome<Results>,
                            keywordOutcome: Outcome<Results>): StoreState {
    if st.loadingAdditionalContent || st.loadedAllContent then st
    else
      var (movie, tv, keyword) := Selection(st, movieGenres, tvGenres, keywords);
      var finished := if movie.None? && tv.None? && keyword.None? then st.(loadedAllContent := true)
        else LoadedSections(st, movie, tv, keyword, now, movieOutcome, tvOutcome, keywordOutcome);
      finished.(loadingAdditionalContent := false, newSectionType := None, newSectionId := None)
  }

  /** While a load is running or everything is loaded, the call does nothing. */
  lemma BusyOrDoneDoesNothing(st: StoreState, movieGenres: seq<string>, tvGenres: seq<string>, keywords: seq<string>,
                              now: int, mo: Outcome<Results>, to: Outcome<Results>, ko: Outcome<Results>)
    requires st.loadingAdditionalContent || st.loadedAllContent
    ensures LoadedAdditional(st, movieGenres, tvGenres, keywords, now, mo, to, ko) == st
  {
  }

  /** With nothing left in any category the store is marked complete and no cache changes. */
  lemma ExhaustedMarksAllLoaded(st: StoreState, movieGenres: seq<string>, tvGenres: seq<string>, keywords: seq<string>,
                                now: int, mo: Outcome<Results>, to: Outcome<Results>, ko: Outcome<Results>)
    requires !st.loadingAdditionalContent && !st.loadedAllContent
    requires forall k :: 0 <= k < |movieGenres| ==> movieGenres[k] in st.moviesByGenre
    requires forall k :: 0 <= k < |tvGenres| ==> "tv-" + tvGenres[k] in st.moviesByGenre
    requires forall k :: 0 <= k < |keywords| ==> keywords[k] in st.moviesByKeyword
    ensures var r := LoadedAdditional(st, movieGenres, tvGenres, keywords, now, mo, to, ko);
      r == st.(loadedAllContent := true, newSectionType := None, newSectionId := None)
  {
    assert forall k :: 0 <= k < |movieGenres| ==> "" + movieGenres[k] == movieGenres[k];
    assert forall k :: 0 <= k < |keywords| ==> "" + keywords[k] == keywords[k];
  }

  /** `after` keeps every entry of `before` and adds only the given keys, each with results. */
  predicate Extends(before: map<string, Results>, after: map<string, Results>, one: Option<string>, two: Option<string>) {
    && (forall k :: k in before ==> k in after && after[k] == before[k])
    && (forall k :: k in after && k !in before ==> (Some(k) == one || Some(k) == two) && after[k].Some? && |after[k].value| > 0)
  }

  /** A settled load's caches: the key holds the results when there are some and is gone
      otherwise; the other section and the load-more flag are untouched. */
  lemma SettledEntries(st: StoreState, section: Section, key: string, outcome: Outcome<Results>)
    ensures var r := Settled(st, section, key, outcome);
      && r.Entries(section) == (if outcome.Answered? && outcome.value.Some? && |outcome.value.value| > 0
                                then st.Entries(section)[key := outcome.value] else st.Entries(section) - {key})
      && r.Entries(if section == GenreSection then KeywordSection else GenreSection)
         == st.Entries(if section == GenreSection then KeywordSection else GenreSection)
      && r.loadingAdditionalContent == st.loadingAdditionalContent
  {
    match outcome
    case Failed =>
    case Answered(results) =>
      var after := st.WithEntries(section, st.Entries(section)[key := results]).WithLoading(section, key, false);
      assert after.Entries(section) == st.Entries(section)[key := results];
      assert st.Entries(section)[key := results] - {key} == st.Entries(section) - {key};
  }

  /** Settling a load of an unused key keeps every other entry and adds the key only with a
      non-empty result; the other section is untouched. */
  lemma SettledIfExtends(st: StoreState, section: Section, key: Option<string>, outcome: Outcome<Results>)
    requires key.None? || key.value !in st.Entries(section)
    ensures var r := SettledIf(st, section, key, outcome);
      && Extends(st.Entries(section), r.Entries(section), key, None)
      && r.Entries(if section == GenreSection then KeywordSection else GenreSection)
         == st.Entries(if section == GenreSection then KeywordSection else GenreSection)
      && r.loadingAdditionalContent == st.loadingAdditionalContent
  {
    if key.Some? {
      SettledEntries(st, section, key.value, outcome);
    }
  }

  /** Settling a key again keeps every other entry and leaves the key only with a non-empty
      result. */
  lemma SettledReplaces(st: StoreState, section: Section, key: string, outcome: Outcome<Results>)
    ensures var r := Settled(st, section, key, outcome);
      && (forall k :: k in st.Entries(section) && k != key ==> k in r.Entries(section) && r.Entries(section)[k] == st.Entries(section)[k])
      && (forall k :: k in r.Entries(section) ==> k in st.Entries(section) || k == key)
      && (key in r.Entries(section) ==> r.Entries(section)[key].Some? && |r.Entries(section)[key].value| > 0)
  {
    SettledEntries(st, section, key, outcome);
  }

  /** Two extensions in a row extend by both keys. */
  lemma ExtendsTwice(a: map<string, Results>, b: map<string, Results>, c: map<string, Results>, one: Option<string>, two: Option<string>)
    requires Extends(a, b, one, None) && Extends(b, c, two, None)
    ensures Extends(a, c, one, two)
  {
  }

  /** Settling the first key again keeps an extension by that key. */
  lemma ReplacedExtends(a: map<string, Results>, b: map<string, Results>, c: map<string, Results>, key: string)
    requires Extends(a, b, Some(key), None)
    requires forall k :: k in b && k != key ==> k in c && c[k] == b[k]
    requires forall k :: k in c ==> k in b || k == key
    requires key in c ==> c[key].Some? && |c[key].value| > 0
    requires key !in a
    ensures Extends(a, c, Some(key), Some(key))
  {
  }

  /** A movie genre literally named `tv-` + a TV genre: the second load settles the same key. */
  lemma SameGenreLoadsExtend(st: StoreState, key: string, mo: Outcome<Results>, to: Outcome<Results>)
    requires key !in st.moviesByGenre
    ensures var r := SettledIf(SettledIf(st, GenreSection, Some(key), mo), GenreSection, Some(key), to);
      && Extends(st.moviesByGenre, r.moviesByGenre, Some(key), Some(key))
      && r.moviesByKeyword == st.moviesByKeyword
  {
    var s4 := SettledIf(st, GenreSection, Some(key), mo);
    var r := SettledIf(s4, GenreSection, Some(key), to);
    SettledIfExtends(st, GenreSection, Some(key), mo);
    SettledReplaces(s4, GenreSection, key, to);
    SettledEntries(s4, GenreSection, key, to);
    ReplacedExtends(st.moviesByGenre, s4.moviesByGenre, r.moviesByGenre, key);
  }

  /** Two genre loads of different keys extend by both. */
  lemma DistinctGenreLoadsExtend(st: StoreState, movie: Option<string>, tv: Option<string>, mo: Outcome<Results>, to: Outcome<Results>)
    requires movie.None? || movie.value !in st.moviesByGenre
    requires tv.None? || tv.value !in st.moviesByGenre
    requires !(tv.Some? && movie.Some? && tv.value == movie.value)
    ensures var r := SettledIf(SettledIf(st, GenreSection, movie, mo), GenreSection, tv, to);
      && Extends(st.moviesByGenre, r.moviesByGenre, movie, tv)
      && r.moviesByKeyword == st.moviesByKeyword
  {
    var s4 := SettledIf(st, GenreSection, movie, mo);
    var r := SettledIf(s4, GenreSection, tv, to);
    SettledIfExtends(st, GenreSection, movie, mo);
    assert Extends(st.moviesByGenre, s4.moviesByGenre, movie, None) && s4.moviesByKeyword == st.moviesByKeyword;
    if tv.Some? {
      assert Some(tv.value) != movie;
      assert tv.value !in s4.moviesByGenre;
    }
    SettledIfExtends(s4, GenreSection, tv, to);
    assert Extends(s4.moviesByGenre, r.moviesByGenre, tv, None) && r.moviesByKeyword == s4.moviesByKeyword;
    ExtendsTwice(st.moviesByGenre, s4.moviesByGenre, r.moviesByGenre, movie, tv);
  }

  /** The two genre loads extend the genre cache by their keys and leave the keyword cache. */
  lemma GenreLoadsExtend(st: StoreState, movie: Option<string>, tv: Option<string>, mo: Outcome<Results>, to: Outcome<Results>)
    requires movie.None? || movie.value !in st.moviesByGenre
    requires tv.None? || tv.value !in st.moviesByGenre
    ensures var r := SettledIf(SettledIf(st, GenreSection, movie, mo), GenreSection, tv, to);
      && Extends(st.moviesByGenre, r.moviesByGenre, movie, tv)
      && r.moviesByKeyword == st.moviesByKeyword
  {
    if tv.Some? && movie.Some? && tv.value == movie.value {
      SameGenreLoadsExtend(st, tv.value, mo, to);
    } else {
      DistinctGenreLoadsExtend(st, movie, tv, mo, to);
    }
  }

  /** The selected section loads add at most their own keys, each only with results, and keep
      everything else. */
  lemma LoadedSectionsExtend(st: StoreState, movie: Option<string>, tv: Option<string>, keyword: Option<string>, now: int,
                             mo: Outcome<Results>, to: Outcome<Results>, ko: Outcome<Results>)
    requires movie.None? || movie.value !in st.moviesByGenre
    requires tv.None? || tv.value !in st.moviesByGenre
    requires keyword.None? || keyword.value !in st.moviesByKeyword
    ensures var r := LoadedSections(st, movie, tv, keyword, now, mo, to, ko);
      && Extends(st.moviesByGenre, r.moviesByGenre, movie, tv)
      && Extends(st.moviesByKeyword, r.moviesByKeyword, keyword, None)
  {
    var s3 := BeganIf(BeganIf(BeganIf(st, GenreSection, movie), GenreSection, tv), KeywordSection, keyword);
    assert s3.moviesByGenre == st.moviesByGenre && s3.moviesByKeyword == st.moviesByKeyword;
    var s5 := SettledIf(SettledIf(s3, GenreSection, movie, mo), GenreSection, tv, to);
    GenreLoadsExtend(s3, movie, tv, mo, to);
    SettledIfExtends(s5, KeywordSection, keyword, ko);
  }

  /** A section load adds at most the three selected keys, each only with results, and keeps or
      replaces nothing else; afterwards no load is running and no new-section marker is left. */
  lemma LoadAddsAtMostOnePerCategory(st: StoreState, movieGenres: seq<string>, tvGenres: seq<string>, keywords: seq<string>,
                                     now: int, mo: Outcome<Results>, to: Outcome<Results>, ko: Outcome<Results>)
    requires !st.loadingAdditionalContent && !st.loadedAllContent
    ensures var r := LoadedAdditional(st, movieGenres, tvGenres, keywords, now, mo, to, ko);
      var (movie, tv, keyword) := Selection(st, movieGenres, tvGenres, keywords);
      && !r.loadingAdditionalContent && r.newSectionType.None? && r.newSectionId.None?
      && Extends(st.moviesByGenre, r.moviesByGenre, movie, tv)
      && Extends(st.moviesByKeyword, r.moviesByKeyword, keyword, None)
  {
    var (movie, tv, keyword) := Selection(st, movieGenres, tvGenres, keywords);
    if movie.Some? { assert "" + movie.value == movie.value; }
    if keyword.Some? { assert "" + keyword.value == keyword.value; }
    if !(movie.None? && tv.None? && keyword.None?) {
      LoadedSectionsExtend(st, movie, tv, keyword, now, mo, to, ko);
    }
  }

  /** clearCache. */
  function Cleared(st: StoreState): StoreState {
    st.(moviesByGenre := map[], moviesByKeyword := map[], popularContent := [], lastUpdated := None)
  }

  /** After clearing, nothing is cached and no cache read can hit. */
  lemma ClearedNeverHits(st: StoreState, section: Section, key: string, now: int)
    ensures CacheHit(Cleared(st), section, key, now).None?
    ensures !CacheValid(Cleared(st), now)
  {
  }

  class MoviesStore {
    var moviesByGenre: map<string, Results>
    var moviesByKeyword: map<string, Results>
    var popularContent: seq<Item>
    var loadingGenres: map<string, bool>
    var loadingKeywords: map<string, bool>
    var loadingPopular: bool
    var lastUpdated: Option<int>
    var error: Option<string>
    var loadedAllContent: bool
    var loadingAdditionalContent: bool
    var newSectionType: Option<string>
    var newSectionId: Option<string>

    function State(): StoreState
      reads this
    {
      StoreState(moviesByGenre, moviesByKeyword, popularContent, loadingGenres, loadingKeywords, loadingPopular,
                 lastUpdated, error, loadedAllContent, loadingAdditionalContent, newSectionType, newSectionId)
    }

    constructor ()
      ensures State() == InitialState
    {
      moviesByGenre := map[];
      moviesByKeyword := map[];
      popularContent := [];
      loadingGenres := map[];
      loadingKeywords := map[];
      loadingPopular := false;
      lastUpdated := None;
      error := None;
      loadedAllContent := false;
      loadingAdditionalContent := false;
      newSectionType := None;
      newSectionId := None;
    }

    /** isCacheValid. */
    function IsCacheValid(now: int): (valid: bool)
      reads this
      ensures valid <==> CacheValid(State(), now)
    {
      lastUpdated.Some? && lastUpdated.value != 0 && now - lastUpdated.value < CacheExpiration
    }

    method BeginFetch(section: Section, key: string)
      modifies this
      ensures State() == Began(old(State()), section, key)
    {
      if section == GenreSection {
        loadingGenres := loadingGenres[key := true];
      } else {
        loadingKeywords := loadingKeywords[key := true];
      }
      error := None;
    }

    method CompleteFetch(section: Section, key: string, outcome: Outcome<Results>) returns (results: Results)
      modifies this
      ensures (State(), results) == Completed(old(State()), section, key, outcome)
    {
      if outcome.Failed? {
        error := Some(FetchMoviesError);
        results := Some([]);
      } else {
        results := outcome.value;
        if section == GenreSection {
          moviesByGenre := moviesByGenre[key := results];
        } else {
          moviesByKeyword := moviesByKeyword[key := results];
        }
      }
      if section == GenreSection {
        loadingGenres := loadingGenres[key := false];
      } else {
        loadingKeywords := loadingKeywords[key := false];
      }
    }

    /** fetchMoviesByGenre (`GenreSection`) and fetchMoviesByKeyword (`KeywordSection`). */
    method Fetch(section: Section, key: string, now: int, outcome: Outcome<Results>) returns (results: Results)
      modifies this
      ensures (State(), results) == Fetched(old(State()), section, key, now, outcome)
    {
      var entries := if section == GenreSection then moviesByGenre else moviesByKeyword;
      if key in entries && entries[key].Some? && IsCacheValid(now) {
        return entries[key];
      }
      BeginFetch(section, key);
      results := CompleteFetch(section, key, outcome);
    }

    /** fetchPopularContent. */
    method FetchPopularContent(now: int, outcome: Outcome<(Results, Results)>) returns (content: seq<Item>)
      modifies this
      ensures (State(), content) == PopularFetched(old(State()), now, outcome)
    {
      if |popularContent| > 0 && IsCacheValid(now) {
        return popularContent;
      }
      loadingPopular := true;
      error := None;
      content := SettlePopular(now, outcome);
    }

    /** The `try`/`catch`/`finally` of fetchPopularContent, once the request is under way. */
    method SettlePopular(now: int, outcome: Outcome<(Results, Results)>) returns (content: seq<Item>)
      modifies this
      ensures outcome.Failed? ==> State() == old(State()).(loadingPopular := false, error := Some(PopularError)) && content == []
      ensures outcome.Answered? ==>
        var top := TopPopular(outcome.value.0, outcome.value.1);
        State() == old(State()).(loadingPopular := false, popularContent := top, lastUpdated := Some(now)) && content == top
    {
      if outcome.Failed? {
        error := Some(PopularError);
        content := [];
      } else {
        var (movies, series) := outcome.value;
        popularContent := TopPopular(movies, series);
        lastUpdated := Some(now);
        content := popularContent;
      }
      loadingPopular := false;
    }

    method StartIf(section: Section, key: Option<string>)
      modifies this
      ensures State() == BeganIf(old(State()), section, key)
    {
      if key.Some? {
        BeginFetch(section, key.value);
      }
    }

    method SettleIf(section: Section, key: Option<string>, outcome: Outcome<Results>)
      modifies this
      ensures State() == SettledIf(old(State()), section, key, outcome)
    {
      if key.Some? {
        var results := CompleteFetch(section, key.value, outcome);
        if !(results.Some? && |results.value| > 0) {
          if section == GenreSection {
            moviesByGenre := moviesByGenre - {key.value};
          } else {
            moviesByKeyword := moviesByKeyword - {key.value};
          }
        }
      }
    }

    method LoadSections(movie: Option<string>, tv: Option<string>, keyword: Option<string>, now: int,
                        movieOutcome: Outcome<Results>, tvOutcome: Outcome<Results>, keywordOutcome: Outcome<Results>)
      modifies this
      ensures State() == LoadedSections(old(State()), movie, tv, keyword, now, movieOutcome, tvOutcome, keywordOutcome)
    {
      StartIf(GenreSection, movie);
      StartIf(GenreSection, tv);
      StartIf(KeywordSection, keyword);
      SettleIf(GenreSection, movie, movieOutcome);
      SettleIf(GenreSection, tv, tvOutcome);
      SettleIf(KeywordSection, keyword, keywordOutcome);
      lastUpdated := Some(now);
    }

    /** loadAdditionalContent. The section marker set for a movie genre is cleared again when the
        call ends. */
    method LoadAdditionalContent(movieGenres: seq<string>, tvGenres: seq<string>, keywords: seq<string>, now: int,
                                 movieOutcome: Outcome<Results>, tvOutcome: Outcome<Results>, keywordOutcome: Outcome<Results>)
      modifies this
      ensures State() == LoadedAdditional(old(State()), movieGenres, tvGenres, keywords, now, movieOutcome, tvOutcome, keywordOutcome)
    {
      if loadingAdditionalContent || loadedAllContent {
        return;
      }
      var (movie, tv, keyword) := Selection(State(), movieGenres, tvGenres, keywords);
      if movie.None? && tv.None? && keyword.None? {
        loadedAllContent := true;
      } else {
        LoadSections(movie, tv, keyword, now, movieOutcome, tvOutcome, keywordOutcome);
      }
      FinishLoad();
    }

    /** The `finally` of loadAdditionalContent: the load-more flag and the new-section marker reset. */
    method FinishLoad()
      modifies this
      ensures State() == old(State()).(loadingAdditionalContent := false, newSectionType := None, newSectionId := None)
    {
      loadingAdditionalContent := false;
      newSectionType := None;
      newSectionId := None;
    }

    /** clearCache. */
    method ClearCache()
      modifies this
      ensures State() == Cleared(old(State()))
    {
      moviesByGenre := map[];
      moviesByKeyword := map[];
      popularContent := [];
      lastUpdated := None;
    }
  }
}
