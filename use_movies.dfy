/**
  The useMovies composable: per-genre and per-keyword result caches whose
  entries carry their own timestamp and stay fresh for an hour, and the
  home-page load that picks random genres and keywords and fetches them all
  at once.

  The shuffle behind `getRandomItems` is an input: it is some reordering of
  the list. The network is the `respond` function from a request to its
  outcome. The home-page requests run as JavaScript runs them: each call
  checks its cache entry and, on a miss, raises `loading` and clears `error`
  before any response arrives; responses are then applied in source order.
  One clock reading `now` serves the whole load.
 */
module UseMovies {
  import opened Wrappers
  import opened Frontend
  import opened HomeLists

  const CacheExpiration := 60 * 60 * 1000
  const FetchError := "Error fetching movies. Please try again later."

  /** `response.data.results`: undefined when the response carried none. */
  type Results = Option<seq<Item>>

  /** A cache entry `{ data, timestamp }`. */
  datatype Entry = Entry(data: Results, timestamp: int)

  datatype Cache = GenreCache | KeywordCache

  /** The composable's state: its refs and its two caches. */
  datatype MoviesState = MoviesState(
    movies: seq<Item>,
    loading: bool,
    error: Option<string>,
    genres: map<string, Entry>,
    keywords: map<string, Entry>)
  {
    function Entries(cache: Cache): map<string, Entry> {
      if cache == GenreCache then genres else keywords
    }

    function WithEntries(cache: Cache, m: map<string, Entry>): MoviesState {
      if cache == GenreCache then this.(genres := m) else this.(keywords := m)
    }
  }

  /** The cached data a fetch returns without a request: the entry exists and is fresh. */
  function CachedData(st: MoviesState, cache: Cache, key: string, now: int): Option<Results> {
    if key in st.Entries(cache) && Fresh(st.Entries(cache)[key].timestamp, now, CacheExpiration)
    then Some(st.Entries(cache)[key].data) else None
  }

  /** The synchronous start of a request. */
  function Started(st: MoviesState): MoviesState {
    st.(loading := true, error := None)
  }

  /** A response: a success is cached with the present time, a failure sets the error and
      answers `[]`; `loading` goes down either way. */
  function Finished(st: MoviesState, cache: Cache, key: string, now: int, outcome: Outcome<Results>): (MoviesState, Results) {
    match outcome
    case Failed => (st.(loading := false, error := Some(FetchError)), Some([]))
    case Answered(results) =>
      (st.WithEntries(cache, st.Entries(cache)[key := Entry(results, now)]).(loading := false), results)
  }

  /** fetchMoviesByGenre / fetchMoviesByKeyword. */
  function Fetched(st: MoviesState, cache: Cache, key: string, now: int, outcome: Outcome<Results>): (MoviesState, Results) {
    match CachedData(st, cache, key, now)
    case Some(data) => (st, data)
    case None => Finished(Started(st), cache, key, now, outcome)
  }

  /** A fresh entry is answered as it is and nothing changes, whatever the network would say. */
  lemma FreshEntryIsServed(st: MoviesState, cache: Cache, key: string, now: int, outcome: Outcome<Results>)
    requires key in st.Entries(cache) && st.Entries(cache)[key].timestamp > now - CacheExpiration
    ensures Fetched(st, cache, key, now, outcome) == (st, st.Entries(cache)[key].data)
  {
  }

  /** A miss ends with `loading` false; a success is cached under the key stamped with the
      present time, a failure answers `[]`, sets the error and leaves both caches alone. */
  lemma MissOutcomes(st: MoviesState, cache: Cache, key: string, now: int, outcome: Outcome<Results>)
    requires key !in st.Entries(cache) || st.Entries(cache)[key].timestamp <= now - CacheExpiration
    ensures var (after, results) := Fetched(st, cache, key, now, outcome);
      && !after.loading && after.movies == st.movies
      && (outcome.Failed? ==> results == Some([]) && after.error == Some(FetchError)
                              && after.genres == st.genres && after.keywords == st.keywords)
      && (outcome.Answered? ==> results == outcome.value && after.error.None?
                                && after.Entries(cache) == st.Entries(cache)[key := Entry(outcome.value, now)])
  {
  }

  /** What a fetch caches it serves again, without a request, for the next hour. */
  lemma CachedWithinTheHour(st: MoviesState, cache: Cache, key: string, now: int, later: int,
                            results: Results, next: Outcome<Results>)
    requires CachedData(st, cache, key, now).None?
    requires later - now < CacheExpiration
    ensures var (after, answer) := Fetched(st, cache, key, now, Answered(results));
      Fetched(after, cache, key, later, next) == (after, answer)
  {
  }

  /** A failed request caches nothing, so the next call asks the network again. */
  lemma FailureIsRetried(st: MoviesState, cache: Cache, key: string, now: int, results: Results)
    requires CachedData(st, cache, key, now).None?
    ensures Fetched(Fetched(st, cache, key, now, Failed).0, cache, key, now, Answered(results)).1 == results
  {
  }

  // ---------------------------------------------------------------- random selection

  function Min(a: int, b: int): int {
    if a <= b then a else b
  }

  /** getRandomItems: the first `count` elements of `shuffled`, the copy of the list as the
      random sort left it; for a reordering of the list that is `count` of its elements, or all. */
  function RandomItems<T>(list: seq<T>, count: nat, shuffled: seq<T>): (r: seq<T>)
    ensures multiset(shuffled) == multiset(list) ==> |r| == Min(count, |list|) && multiset(r) <= multiset(list)
  {
    var n := Min(count, |shuffled|);
    assert shuffled == shuffled[..n] + shuffled[n..];
    assert multiset(shuffled) == multiset(shuffled[..n]) + multiset(shuffled[n..]);
    assert multiset(shuffled) == multiset(list) ==> |shuffled| == |multiset(shuffled)| == |list|;
    shuffled[..n]
  }

  /** An element repeated in a sequence appears at least twice in its multiset. */
  lemma RepeatCounts<T>(s: seq<T>, i: int, j: int)
    requires 0 <= i < j < |s| && s[i] == s[j]
    ensures multiset(s)[s[i]] >= 2
  {
    assert s == s[..j] + [s[j]] + s[j + 1..];
    assert s[..j][i] == s[i];
    assert multiset(s) == multiset(s[..j]) + multiset{s[j]} + multiset(s[j + 1..]);
  }

  /** In a list without repeats every element appears once. */
  lemma {:induction false} DistinctCounts<T>(s: seq<T>, x: T)
    requires Distinct(s)
    ensures multiset(s)[x] <= 1
  {
    if s != [] {
      var rest := s[1..];
      assert s == [s[0]] + rest;
      assert Distinct(rest) by {
        forall i, j | 0 <= i < j < |rest| ensures rest[i] != rest[j] {
          assert rest[i] == s[i + 1] && rest[j] == s[j + 1];
        }
      }
      DistinctCounts(rest, x);
      if x == s[0] {
        assert x !in rest by {
          forall k | 0 <= k < |rest| ensures rest[k] != x {
            assert rest[k] == s[k + 1];
          }
        }
      }
    }
  }

  /** A random pick from a list without repeats has no repeats: the home page asks for
      distinct genres and keywords. */
  lemma RandomItemsDistinct<T>(list: seq<T>, count: nat, shuffled: seq<T>)
    requires multiset(shuffled) == multiset(list)
    requires Distinct(list)
    ensures Distinct(RandomItems(list, count, shuffled))
  {
    var r := RandomItems(list, count, shuffled);
    forall i, j | 0 <= i < j < |r| ensures r[i] != r[j] {
      if r[i] == r[j] {
        RepeatCounts(r, i, j);
        DistinctCounts(list, r[i]);
        assert false;
      }
    }
  }

  // ---------------------------------------------------------------- home page

  /** One home-page request: the cache it goes through, its key there, and its slot in the
      content map. */
  datatype Request = Request(cache: Cache, key: string, slot: string)

  /** The selected genres under their own names, the TV genres as `tv-` + genre in the genre
      cache, the keywords in the keyword cache under `keyword-` + keyword. */
  function HomeRequests(movieGenres: seq<string>, tvGenres: seq<string>, keywords: seq<string>): (r: seq<Request>)
    ensures |r| == |movieGenres| + |tvGenres| + |keywords|
    ensures forall i :: 0 <= i < |movieGenres| ==> r[i] == Request(GenreCache, movieGenres[i], movieGenres[i])
    ensures forall i :: 0 <= i < |tvGenres| ==>
      r[|movieGenres| + i] == Request(GenreCache, "tv-" + tvGenres[i], "tv-" + tvGenres[i])
    ensures forall i :: 0 <= i < |keywords| ==>
      r[|movieGenres| + |tvGenres| + i] == Request(KeywordCache, keywords[i], "keyword-" + keywords[i])
  {
    seq(|movieGenres|, i requires 0 <= i < |movieGenres| => Request(GenreCache, movieGenres[i], movieGenres[i]))
    + seq(|tvGenres|, i requires 0 <= i < |tvGenres| => Request(GenreCache, "tv-" + tvGenres[i], "tv-" + tvGenres[i]))
    + seq(|keywords|, i requires 0 <= i < |keywords| => Request(KeywordCache, keywords[i], "keyword-" + keywords[i]))
  }

  /** Whether a request is answered from the cache it saw when it started. */
  predicate Misses(initial: MoviesState, q: Request, now: int) {
    CachedData(initial, q.cache, q.key, now).None?
  }

  /** The starts of all requests, every hit decided against the caches before any response. */
  function StartedAll(initial: MoviesState, st: MoviesState, reqs: seq<Request>, now: int): MoviesState {
    if reqs == [] then st
    else
      var s := StartedAll(initial, st, reqs[..|reqs| - 1], now);
      if Misses(initial, reqs[|reqs| - 1], now) then Started(s) else s
  }

  /** What a request answers: its cached data, or the network's results, or `[]` on failure. */
  function Answer(initial: MoviesState, q: Request, now: int, outcome: Outcome<Results>): Results {
    match CachedData(initial, q.cache, q.key, now)
    case Some(data) => data
    case None => if outcome.Answered? then outcome.value else Some([])
  }

  /** The responses applied in order, each answer stored in the content map under its slot. */
  function SettledAll(initial: MoviesState, st: MoviesState, reqs: seq<Request>, now: int,
                      respond: (Cache, string) -> Outcome<Results>): (MoviesState, map<string, Results>) {
    if reqs == [] then (st, map[])
    else
      var q := reqs[|reqs| - 1];
      var (s, content) := SettledAll(initial, st, reqs[..|reqs| - 1], now, respond);
      match CachedData(initial, q.cache, q.key, now)
      case Some(data) => (s, content[q.slot := data])
      case None =>
        var (s2, results) := Finished(s, q.cache, q.key, now, respond(q.cache, q.key));
        (s2, content[q.slot := results])
  }

  /** The state a home-page load starts from: loading, no error, no movies. */
  function HomeBase(st: MoviesState): MoviesState {
    st.(loading := true, error := None, movies := [])
  }

  /** fetchMoviesForHomePage on the selected genres and keywords. */
  function HomePage(st: MoviesState, movieGenres: seq<string>, tvGenres: seq<string>, keywords: seq<string>, now: int,
                    respond: (Cache, string) -> Outcome<Results>): (MoviesState, map<string, Results>) {
    var reqs := HomeRequests(movieGenres, tvGenres, keywords);
    var base := HomeBase(st);
    var (settled, content) := SettledAll(base, StartedAll(base, base, reqs, now), reqs, now, respond);
    (settled.(loading := false), content)
  }

  /** The starts change only `loading` and `error`, and only when some request misses. */
  lemma {:induction false} StartedAllShape(initial: MoviesState, st: MoviesState, reqs: seq<Request>, now: int)
    ensures var r := StartedAll(initial, st, reqs, now);
      && r.genres == st.genres && r.keywords == st.keywords && r.movies == st.movies
      && ((exists i :: 0 <= i < |reqs| && Misses(initial, reqs[i], now)) ==> r == Started(st))
      && ((forall i :: 0 <= i < |reqs| ==> !Misses(initial, reqs[i], now)) ==> r == st)
  {
    if reqs != [] {
      var front := reqs[..|reqs| - 1];
      StartedAllShape(initial, st, front, now);
      assert forall i :: 0 <= i < |front| ==> front[i] == reqs[i];
      if exists i :: 0 <= i < |reqs| && Misses(initial, reqs[i], now) {
        var i :| 0 <= i < |reqs| && Misses(initial, reqs[i], now);
        if i < |front| {
          assert Misses(initial, front[i], now);
        }
      }
    }
  }

  /** Every request's slot is in the content map, and nothing else is. */
  lemma {:induction false} SettledAllSlots(initial: MoviesState, st: MoviesState, reqs: seq<Request>, now: int,
                                           respond: (Cache, string) -> Outcome<Results>, slot: string)
    ensures var content := SettledAll(initial, st, reqs, now, respond).1;
      slot in content <==> exists i :: 0 <= i < |reqs| && reqs[i].slot == slot
  {
    if reqs != [] {
      var front := reqs[..|reqs| - 1];
      SettledAllSlots(initial, st, front, now, respond, slot);
      assert forall i :: 0 <= i < |front| ==> front[i] == reqs[i];
      if exists i :: 0 <= i < |reqs| && reqs[i].slot == slot {
        var i :| 0 <= i < |reqs| && reqs[i].slot == slot;
        if i < |front| {
          assert front[i].slot == slot;
        }
      }
    }
  }

  /** With distinct slots each slot holds its own request's answer. */
  lemma {:induction false} SettledAllAnswers(initial: MoviesState, st: MoviesState, reqs: seq<Request>, now: int,
                                             respond: (Cache, string) -> Outcome<Results>, i: int)
    requires 0 <= i < |reqs|
    requires forall a, b :: 0 <= a < b < |reqs| ==> reqs[a].slot != reqs[b].slot
    ensures var content := SettledAll(initial, st, reqs, now, respond).1;
      reqs[i].slot in content
      && content[reqs[i].slot] == Answer(initial, reqs[i], now, respond(reqs[i].cache, reqs[i].key))
  {
    var front := reqs[..|reqs| - 1];
    if i < |reqs| - 1 {
      assert front[i] == reqs[i];
      SettledAllAnswers(initial, st, front, now, respond, i);
      assert reqs[|reqs| - 1].slot != reqs[i].slot;
    }
  }

  /** One more response sets the error when it is a failed miss and otherwise keeps it; the movies
      stay. */
  lemma SettledAllErrorStep(initial: MoviesState, st: MoviesState, reqs: seq<Request>, now: int,
                            respond: (Cache, string) -> Outcome<Results>)
    requires reqs != []
    ensures var q := reqs[|reqs| - 1];
      var prev := SettledAll(initial, st, reqs[..|reqs| - 1], now, respond).0;
      var r := SettledAll(initial, st, reqs, now, respond).0;
      && r.movies == prev.movies
      && r.error == if Misses(initial, q, now) && respond(q.cache, q.key).Failed? then Some(FetchError) else prev.error
  {
  }

  /** After the responses the error is set exactly when some request that missed failed. */
  lemma {:induction false} SettledAllError(initial: MoviesState, st: MoviesState, reqs: seq<Request>, now: int,
                                           respond: (Cache, string) -> Outcome<Results>)
    ensures var r := SettledAll(initial, st, reqs, now, respond).0;
      && r.movies == st.movies
      && (r.error.Some? ==> r.error == Some(FetchError) || r.error == st.error)
      && ((exists i :: 0 <= i < |reqs| && Misses(initial, reqs[i], now) && respond(reqs[i].cache, reqs[i].key).Failed?)
          ==> r.error == Some(FetchError))
      && ((forall i :: 0 <= i < |reqs| ==> !(Misses(initial, reqs[i], now) && respond(reqs[i].cache, reqs[i].key).Failed?))
          ==> r.error == st.error)
  {
    if reqs != [] {
      var front := reqs[..|reqs| - 1];
      SettledAllError(initial, st, front, now, respond);
      SettledAllErrorStep(initial, st, reqs, now, respond);
      assert forall i :: 0 <= i < |front| ==> front[i] == reqs[i];
      if exists i :: 0 <= i < |reqs| && Misses(initial, reqs[i], now) && respond(reqs[i].cache, reqs[i].key).Failed? {
        var i :| 0 <= i < |reqs| && Misses(initial, reqs[i], now) && respond(reqs[i].cache, reqs[i].key).Failed?;
        if i < |front| {
          assert Misses(initial, front[i], now) && respond(front[i].cache, front[i].key).Failed?;
        }
      }
    }
  }

  /** One more response changes a cache only when it answered a miss in that cache, and then
      only at its key. */
  lemma SettledAllStep(initial: MoviesState, st: MoviesState, reqs: seq<Request>, now: int,
                       respond: (Cache, string) -> Outcome<Results>, cache: Cache)
    requires reqs != []
    ensures var q := reqs[|reqs| - 1];
      var prev := SettledAll(initial, st, reqs[..|reqs| - 1], now, respond).0;
      SettledAll(initial, st, reqs, now, respond).0.Entries(cache)
        == if Misses(initial, q, now) && respond(q.cache, q.key).Answered? && q.cache == cache
           then prev.Entries(cache)[q.key := Entry(respond(q.cache, q.key).value, now)]
           else prev.Entries(cache)
  {
  }

  /** After the responses an entry nobody requested is as it was. */
  lemma {:induction false} SettledAllUntouched(initial: MoviesState, st: MoviesState, reqs: seq<Request>, now: int,
                                               respond: (Cache, string) -> Outcome<Results>, cache: Cache, key: string)
    requires forall i :: 0 <= i < |reqs| ==> !(reqs[i].cache == cache && reqs[i].key == key)
    ensures var r := SettledAll(initial, st, reqs, now, respond).0;
      (key in r.Entries(cache) <==> key in st.Entries(cache))
      && (key in st.Entries(cache) ==> r.Entries(cache)[key] == st.Entries(cache)[key])
  {
    if reqs != [] {
      var front := reqs[..|reqs| - 1];
      assert forall i :: 0 <= i < |front| ==> front[i] == reqs[i];
      SettledAllUntouched(initial, st, front, now, respond, cache, key);
      SettledAllStep(initial, st, reqs, now, respond, cache);
    }
  }

  /** After the responses an entry requested, missed and answered holds that answer stamped with
      the present time. */
  lemma {:induction false} SettledAllStored(initial: MoviesState, st: MoviesState, reqs: seq<Request>, now: int,
                                            respond: (Cache, string) -> Outcome<Results>, cache: Cache, key: string)
    requires exists i :: 0 <= i < |reqs| && reqs[i].cache == cache && reqs[i].key == key
    requires CachedData(initial, cache, key, now).None? && respond(cache, key).Answered?
    ensures var r := SettledAll(initial, st, reqs, now, respond).0;
      key in r.Entries(cache) && r.Entries(cache)[key] == Entry(respond(cache, key).value, now)
  {
    var front := reqs[..|reqs| - 1];
    var q := reqs[|reqs| - 1];
    SettledAllStep(initial, st, reqs, now, respond, cache);
    if !(q.cache == cache && q.key == key) {
      var i :| 0 <= i < |reqs| && reqs[i].cache == cache && reqs[i].key == key;
      assert front[i] == reqs[i];
      SettledAllStored(initial, st, front, now, respond, cache, key);
    }
  }

  /** After the responses an entry requested and answered holds that answer stamped with the
      present time, and an entry nobody requested is as it was. */
  lemma SettledAllCaches(initial: MoviesState, st: MoviesState, reqs: seq<Request>, now: int,
                         respond: (Cache, string) -> Outcome<Results>, cache: Cache, key: string)
    ensures var r := SettledAll(initial, st, reqs, now, respond).0;
      && ((forall i :: 0 <= i < |reqs| ==> !(reqs[i].cache == cache && reqs[i].key == key)) ==>
            (key in r.Entries(cache) <==> key in st.Entries(cache))
            && (key in st.Entries(cache) ==> r.Entries(cache)[key] == st.Entries(cache)[key]))
      && ((exists i :: 0 <= i < |reqs| && reqs[i].cache == cache && reqs[i].key == key) &&
          CachedData(initial, cache, key, now).None? && respond(cache, key).Answered? ==>
            key in r.Entries(cache) && r.Entries(cache)[key] == Entry(respond(cache, key).value, now))
  {
    if forall i :: 0 <= i < |reqs| ==> !(reqs[i].cache == cache && reqs[i].key == key) {
      SettledAllUntouched(initial, st, reqs, now, respond, cache, key);
    }
    if (exists i :: 0 <= i < |reqs| && reqs[i].cache == cache && reqs[i].key == key) &&
       CachedData(initial, cache, key, now).None? && respond(cache, key).Answered? {
      SettledAllStored(initial, st, reqs, now, respond, cache, key);
    }
  }

  /** A home-page load returns one entry per selected genre, TV genre and keyword, each the
      request's answer; it ends not loading, with no movies, and with the error set exactly
      when a request that missed its cache failed. */
  lemma HomePageResult(st: MoviesState, movieGenres: seq<string>, tvGenres: seq<string>, keywords: seq<string>, now: int,
                       respond: (Cache, string) -> Outcome<Results>)
    ensures var (after, content) := HomePage(st, movieGenres, tvGenres, keywords, now, respond);
      var reqs := HomeRequests(movieGenres, tvGenres, keywords);
      && !after.loading && after.movies == []
      && (after.error.Some? <==>
            exists i :: 0 <= i < |reqs| && Misses(HomeBase(st), reqs[i], now) && respond(reqs[i].cache, reqs[i].key).Failed?)
      && (after.error.Some? ==> after.error == Some(FetchError))
      && (forall slot :: slot in content <==> exists i :: 0 <= i < |reqs| && reqs[i].slot == slot)
  {
    var reqs := HomeRequests(movieGenres, tvGenres, keywords);
    var base := HomeBase(st);
    var begun := StartedAll(base, base, reqs, now);
    StartedAllShape(base, base, reqs, now);
    assert begun.error.None? && begun.movies == [];
    SettledAllError(base, begun, reqs, now, respond);
    forall slot ensures slot in SettledAll(base, begun, reqs, now, respond).1 <==>
                        exists i :: 0 <= i < |reqs| && reqs[i].slot == slot {
      SettledAllSlots(base, begun, reqs, now, respond, slot);
    }
  }

  /** Distinct keywords and genres — as the random picks are — give every request its own slot,
      and the content map holds each request's answer. */
  lemma HomePageAnswers(st: MoviesState, movieGenres: seq<string>, tvGenres: seq<string>, keywords: seq<string>, now: int,
                        respond: (Cache, string) -> Outcome<Results>, i: int)
    requires forall a, b :: 0 <= a < b < |HomeRequests(movieGenres, tvGenres, keywords)| ==>
      HomeRequests(movieGenres, tvGenres, keywords)[a].slot != HomeRequests(movieGenres, tvGenres, keywords)[b].slot
    requires 0 <= i < |HomeRequests(movieGenres, tvGenres, keywords)|
    ensures var content := HomePage(st, movieGenres, tvGenres, keywords, now, respond).1;
      var q := HomeRequests(movieGenres, tvGenres, keywords)[i];
      q.slot in content && content[q.slot] == Answer(HomeBase(st), q, now, respond(q.cache, q.key))
  {
    var reqs := HomeRequests(movieGenres, tvGenres, keywords);
    var base := HomeBase(st);
    SettledAllAnswers(base, StartedAll(base, base, reqs, now), reqs, now, respond, i);
  }

  /** The slot of request `a`: the movie genre itself, `tv-` + the TV genre, or `keyword-` + the
      keyword. */
  function SlotOf(m: seq<string>, t: seq<string>, w: seq<string>, a: nat): string
    requires a < |m| + |t| + |w|
  {
    if a < |m| then m[a] else if a < |m| + |t| then "tv-" + t[a - |m|] else "keyword-" + w[a - |m| - |t|]
  }

  lemma SlotAt(m: seq<string>, t: seq<string>, w: seq<string>, a: nat)
    requires a < |m| + |t| + |w|
    ensures HomeRequests(m, t, w)[a].slot == SlotOf(m, t, w, a)
  {
    if a >= |m| + |t| {
      assert HomeRequests(m, t, w)[|m| + |t| + (a - |m| - |t|)].slot == "keyword-" + w[a - |m| - |t|];
    } else if a >= |m| {
      assert HomeRequests(m, t, w)[|m| + (a - |m|)].slot == "tv-" + t[a - |m|];
    }
  }

  /** The same prefix on two different names gives two different keys. */
  lemma PrefixKeepsApart(p: string, x: string, y: string)
    requires x != y
    ensures p + x != p + y
  {
    assert (p + x)[|p|..] == x && (p + y)[|p|..] == y;
  }

  /** No unprefixed name, and no `tv-` key, is a `keyword-` key; no unprefixed name is a `tv-` key. */
  lemma PrefixesClash(g: string, x: string, y: string)
    ensures Unprefixed(g) ==> g != "tv-" + x && g != "keyword-" + y
    ensures "tv-" + x != "keyword-" + y
  {
    assert ("tv-" + x)[0] == 't' && ("tv-" + x)[1] == 'v' && ("tv-" + x)[2] == '-';
    assert ("keyword-" + y)[0] == 'k';
  }

  /** Picks without repeats, whose movie genres do not look prefixed, give every request its own
      slot. */
  lemma {:induction false} SlotsDistinct(m: seq<string>, t: seq<string>, w: seq<string>)
    requires Distinct(m) && Distinct(t) && Distinct(w)
    requires forall k :: 0 <= k < |m| ==> Unprefixed(m[k])
    ensures var reqs := HomeRequests(m, t, w);
      forall a, b :: 0 <= a < b < |reqs| ==> reqs[a].slot != reqs[b].slot
  {
    var reqs := HomeRequests(m, t, w);
    forall a, b | 0 <= a < b < |reqs| ensures reqs[a].slot != reqs[b].slot {
      SlotAt(m, t, w, a);
      SlotAt(m, t, w, b);
      if b < |m| {
      } else if a < |m| {
        PrefixesClash(m[a], if b < |m| + |t| then t[b - |m|] else "", if b < |m| + |t| then "" else w[b - |m| - |t|]);
      } else if b < |m| + |t| {
        PrefixKeepsApart("tv-", t[a - |m|], t[b - |m|]);
      } else if a < |m| + |t| {
        PrefixesClash("", t[a - |m|], w[b - |m| - |t|]);
      } else {
        PrefixKeepsApart("keyword-", w[a - |m| - |t|], w[b - |m| - |t|]);
      }
    }
  }

  /** Every element of a pick is an element of its list. */
  lemma PickedFromList<T>(list: seq<T>, count: nat, shuffled: seq<T>, k: int)
    requires multiset(shuffled) == multiset(list)
    requires 0 <= k < |RandomItems(list, count, shuffled)|
    ensures RandomItems(list, count, shuffled)[k] in list
  {
    var r := RandomItems(list, count, shuffled);
    assert r[k] in multiset(r);
  }

  /** A pick of `count` from a list without repeats, of a list as long as that: `count` names, none
      repeated, each from the list. */
  lemma PickShape<T>(list: seq<T>, count: nat, shuffled: seq<T>)
    requires multiset(shuffled) == multiset(list)
    requires Distinct(list) && count <= |list|
    ensures var r := RandomItems(list, count, shuffled);
      |r| == count && Distinct(r) && forall k :: 0 <= k < |r| ==> r[k] in list
  {
    RandomItemsDistinct(list, count, shuffled);
    var r := RandomItems(list, count, shuffled);
    forall k | 0 <= k < |r| ensures r[k] in list {
      PickedFromList(list, count, shuffled, k);
    }
  }

  /** The lists the home page picks from: no repeats, no movie genre looking prefixed, and long
      enough for the picks. */
  ghost predicate PickLists(mg: seq<string>, tg: seq<string>, kw: seq<string>) {
    && Distinct(mg) && Distinct(tg) && Distinct(kw)
    && (forall k :: 0 <= k < |mg| ==> Unprefixed(mg[k]))
    && |mg| >= 5 && |tg| >= 3 && |kw| >= 4
  }

  /** Picks of 5, 3 and 4 from such lists: that many names, none repeated, no movie genre
      looking prefixed. */
  lemma PicksFrom(mg: seq<string>, tg: seq<string>, kw: seq<string>,
                  shuffledMovieGenres: seq<string>, shuffledTvGenres: seq<string>, shuffledKeywords: seq<string>)
    requires PickLists(mg, tg, kw)
    requires multiset(shuffledMovieGenres) == multiset(mg)
    requires multiset(shuffledTvGenres) == multiset(tg)
    requires multiset(shuffledKeywords) == multiset(kw)
    ensures var m := RandomItems(mg, 5, shuffledMovieGenres);
      var t := RandomItems(tg, 3, shuffledTvGenres);
      var w := RandomItems(kw, 4, shuffledKeywords);
      && |m| == 5 && |t| == 3 && |w| == 4
      && Distinct(m) && Distinct(t) && Distinct(w)
      && forall k :: 0 <= k < |m| ==> Unprefixed(m[k])
  {
    PickShape(mg, 5, shuffledMovieGenres);
    PickShape(tg, 3, shuffledTvGenres);
    PickShape(kw, 4, shuffledKeywords);
    var m := RandomItems(mg, 5, shuffledMovieGenres);
    forall k | 0 <= k < |m| ensures Unprefixed(m[k]) {
      var j :| 0 <= j < |mg| && mg[j] == m[k];
    }
  }

  /** The built-in lists are such lists. */
  lemma BuiltInPickLists()
    ensures PickLists(MovieGenres, TvGenres, Keywords)
  {
    ListsAreUnambiguous();
  }

  /** The home page's picks: 5, 3 and 4 names, none repeated, no movie genre looking prefixed. */
  lemma PicksAreUnambiguous(shuffledMovieGenres: seq<string>, shuffledTvGenres: seq<string>, shuffledKeywords: seq<string>)
    requires multiset(shuffledMovieGenres) == multiset(MovieGenres)
    requires multiset(shuffledTvGenres) == multiset(TvGenres)
    requires multiset(shuffledKeywords) == multiset(Keywords)
    ensures var m := RandomItems(MovieGenres, 5, shuffledMovieGenres);
      var t := RandomItems(TvGenres, 3, shuffledTvGenres);
      var w := RandomItems(Keywords, 4, shuffledKeywords);
      && |m| == 5 && |t| == 3 && |w| == 4
      && Distinct(m) && Distinct(t) && Distinct(w)
      && forall k :: 0 <= k < |m| ==> Unprefixed(m[k])
  {
    BuiltInPickLists();
    PicksFrom(MovieGenres, TvGenres, Keywords, shuffledMovieGenres, shuffledTvGenres, shuffledKeywords);
  }

  /** A home-page load on the picks `m`, `t`, `w` holds, under each request's slot, that
      request's answer. */
  ghost predicate EachRequestAnswered(st: MoviesState, m: seq<string>, t: seq<string>, w: seq<string>, now: int,
                                      respond: (Cache, string) -> Outcome<Results>) {
    var content := HomePage(st, m, t, w, now, respond).1;
    var reqs := HomeRequests(m, t, w);
    forall i :: 0 <= i < |reqs| ==>
      reqs[i].slot in content && content[reqs[i].slot] == Answer(HomeBase(st), reqs[i], now, respond(reqs[i].cache, reqs[i].key))
  }

  /** Over such lists, each picked genre, TV genre and keyword gets its own request's answer. */
  lemma HomePageAnswersFrom(st: MoviesState, mg: seq<string>, tg: seq<string>, kw: seq<string>,
                            shuffledMovieGenres: seq<string>, shuffledTvGenres: seq<string>,
                            shuffledKeywords: seq<string>, now: int, respond: (Cache, string) -> Outcome<Results>)
    requires PickLists(mg, tg, kw)
    requires multiset(shuffledMovieGenres) == multiset(mg)
    requires multiset(shuffledTvGenres) == multiset(tg)
    requires multiset(shuffledKeywords) == multiset(kw)
    ensures var m := RandomItems(mg, 5, shuffledMovieGenres);
      var t := RandomItems(tg, 3, shuffledTvGenres);
      var w := RandomItems(kw, 4, shuffledKeywords);
      |HomeRequests(m, t, w)| == 12 && EachRequestAnswered(st, m, t, w, now, respond)
  {
    var m := RandomItems(mg, 5, shuffledMovieGenres);
    var t := RandomItems(tg, 3, shuffledTvGenres);
    var w := RandomItems(kw, 4, shuffledKeywords);
    PicksFrom(mg, tg, kw, shuffledMovieGenres, shuffledTvGenres, shuffledKeywords);
    SlotsDistinct(m, t, w);
    var reqs := HomeRequests(m, t, w);
    forall i | 0 <= i < |reqs|
      ensures reqs[i].slot in HomePage(st, m, t, w, now, respond).1
      ensures HomePage(st, m, t, w, now, respond).1[reqs[i].slot] == Answer(HomeBase(st), reqs[i], now, respond(reqs[i].cache, reqs[i].key))
    {
      HomePageAnswers(st, m, t, w, now, respond, i);
    }
  }

  /** In a home-page load the twelve picked genres, TV genres and keywords each get their own
      request's answer. */
  lemma HomePageAnswersEachPick(st: MoviesState, shuffledMovieGenres: seq<string>, shuffledTvGenres: seq<string>,
                                shuffledKeywords: seq<string>, now: int, respond: (Cache, string) -> Outcome<Results>)
    requires multiset(shuffledMovieGenres) == multiset(MovieGenres)
    requires multiset(shuffledTvGenres) == multiset(TvGenres)
    requires multiset(shuffledKeywords) == multiset(Keywords)
    ensures var m := RandomItems(MovieGenres, 5, shuffledMovieGenres);
      var t := RandomItems(TvGenres, 3, shuffledTvGenres);
      var w := RandomItems(Keywords, 4, shuffledKeywords);
      |HomeRequests(m, t, w)| == 12 && EachRequestAnswered(st, m, t, w, now, respond)
  {
    BuiltInPickLists();
    HomePageAnswersFrom(st, MovieGenres, TvGenres, Keywords, shuffledMovieGenres, shuffledTvGenres, shuffledKeywords, now, respond);
  }

  /** The composable itself. */
  class Movies {
    var movies: seq<Item>
    var loading: bool
    var error: Option<string>
    var genreCache: map<string, Entry>
    var keywordCache: map<string, Entry>

    function State(): MoviesState
      reads this
    {
      MoviesState(movies, loading, error, genreCache, keywordCache)
    }

    constructor ()
      ensures State() == MoviesState([], false, None, map[], map[])
    {
      movies := [];
      loading := false;
      error := None;
      genreCache := map[];
      keywordCache := map[];
    }

    /** The synchronous part of a fetch: a fresh entry is the answer, otherwise the request begins. */
    method BeginFetch(cache: Cache, key: string, now: int) returns (hit: Option<Results>)
      modifies this
      ensures hit == CachedData(old(State()), cache, key, now)
      ensures State() == if hit.Some? then old(State()) else Started(old(State()))
    {
      var entries := if cache == GenreCache then genreCache else keywordCache;
      if key in entries && entries[key].timestamp > now - CacheExpiration {
        return Some(entries[key].data);
      }
      loading := true;
      error := None;
      return None;
    }

    /** The awaited part of a fetch that missed. */
    method CompleteFetch(cache: Cache, key: string, now: int, outcome: Outcome<Results>) returns (results: Results)
      modifies this
      ensures (State(), results) == Finished(old(State()), cache, key, now, outcome)
    {
      match outcome {
        case Failed =>
          error := Some(FetchError);
          results := Some([]);
        case Answered(r) =>
          if cache == GenreCache {
            genreCache := genreCache[key := Entry(r, now)];
          } else {
            keywordCache := keywordCache[key := Entry(r, now)];
          }
          results := r;
      }
      loading := false;
    }

    method FetchMoviesByGenre(genre: string, now: int, outcome: Outcome<Results>) returns (results: Results)
      modifies this
      ensures (State(), results) == Fetched(old(State()), GenreCache, genre, now, outcome)
    {
      var hit := BeginFetch(GenreCache, genre, now);
      if hit.Some? {
        return hit.value;
      }
      results := CompleteFetch(GenreCache, genre, now, outcome);
    }

    method FetchMoviesByKeyword(keyword: string, now: int, outcome: Outcome<Results>) returns (results: Results)
      modifies this
      ensures (State(), results) == Fetched(old(State()), KeywordCache, keyword, now, outcome)
    {
      var hit := BeginFetch(KeywordCache, keyword, now);
      if hit.Some? {
        return hit.value;
      }
      results := CompleteFetch(KeywordCache, keyword, now, outcome);
    }

    /** The synchronous starts of the home-page requests, one after the other, each checking its
        own cache entry; the caches do not change meanwhile. */
    method StartAll(reqs: seq<Request>, now: int) returns (hits: seq<Option<Results>>)
      modifies this
      ensures State() == StartedAll(old(State()), old(State()), reqs, now)
      ensures |hits| == |reqs|
      ensures forall j :: 0 <= j < |reqs| ==> hits[j] == CachedData(old(State()), reqs[j].cache, reqs[j].key, now)
    {
      ghost var base := State();
      hits := [];
      for i := 0 to |reqs|
        invariant State() == StartedAll(base, base, reqs[..i], now)
        invariant genreCache == base.genres && keywordCache == base.keywords
        invariant |hits| == i
        invariant forall j :: 0 <= j < i ==> hits[j] == CachedData(base, reqs[j].cache, reqs[j].key, now)
      {
        assert reqs[..i + 1][..i] == reqs[..i];
        var hit := BeginFetch(reqs[i].cache, reqs[i].key, now);
        hits := hits + [hit];
      }
      assert reqs[..|reqs|] == reqs;
    }

    /** The responses applied in source order, each answer stored under its slot. */
    method SettleAll(ghost base: MoviesState, reqs: seq<Request>, hits: seq<Option<Results>>, now: int,
                     respond: (Cache, string) -> Outcome<Results>) returns (content: map<string, Results>)
      requires |hits| == |reqs|
      requires forall j :: 0 <= j < |reqs| ==> hits[j] == CachedData(base, reqs[j].cache, reqs[j].key, now)
      modifies this
      ensures (State(), content) == SettledAll(base, old(State()), reqs, now, respond)
    {
      ghost var begun := State();
      content := map[];
      for i := 0 to |reqs|
        invariant (State(), content) == SettledAll(base, begun, reqs[..i], now, respond)
      {
        assert reqs[..i + 1][..i] == reqs[..i];
        var q := reqs[i];
        if hits[i].Some? {
          content := content[q.slot := hits[i].value];
        } else {
          var results := CompleteFetch(q.cache, q.key, now, respond(q.cache, q.key));
          content := content[q.slot := results];
        }
      }
      assert reqs[..|reqs|] == reqs;
    }

    /** The home-page load for the picked genres and keywords. */
    method LoadHomePage(movieGenres: seq<string>, tvGenres: seq<string>, keywords: seq<string>, now: int,
                        respond: (Cache, string) -> Outcome<Results>) returns (content: map<string, Results>)
      modifies this
      ensures (State(), content) == HomePage(old(State()), movieGenres, tvGenres, keywords, now, respond)
    {
      loading := true;
      error := None;
      movies := [];
      var reqs := HomeRequests(movieGenres, tvGenres, keywords);
      ghost var base := State();
      var hits := StartAll(reqs, now);
      content := SettleAll(base, reqs, hits, now, respond);
      loading := false;
    }

    /** fetchMoviesForHomePage: 5 movie genres, 3 TV genres and 4 keywords picked from the shuffled
        lists. */
    method FetchMoviesForHomePage(shuffledMovieGenres: seq<string>, shuffledTvGenres: seq<string>,
                                  shuffledKeywords: seq<string>, now: int,
                                  respond: (Cache, string) -> Outcome<Results>) returns (content: map<string, Results>)
      modifies this
      ensures (State(), content) == HomePage(old(State()), RandomItems(MovieGenres, 5, shuffledMovieGenres),
                                              RandomItems(TvGenres, 3, shuffledTvGenres),
                                              RandomItems(Keywords, 4, shuffledKeywords), now, respond)
    {
      var movieSel := RandomItems(MovieGenres, 5, shuffledMovieGenres);
      var tvSel := RandomItems(TvGenres, 3, shuffledTvGenres);
      var keywordSel := RandomItems(Keywords, 4, shuffledKeywords);
      content := LoadHomePage(movieSel, tvSel, keywordSel, now, respond);
    }
  }
}
