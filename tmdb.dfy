/**
  The result-shaping helpers of TMDBService: the formatting filter every
  listing goes through, the age-rating selections, the genre-name lookup, the
  by-genre dispatch and the discover parameters of the all-movies and
  all-series listings. TMDB's HTTP answers are inputs (`Api`).
 */
module Tmdb {
  import opened Wrappers
  import opened Text
  import opened ShowList

  const ImageBaseUrl := "https://image.tmdb.org/t/p/original"

  /** One item of a TMDB result list, by the fields the formatter reads (`None`: key missing or null). */
  datatype RawResult = RawResult(
    mediaType: Option<string>,
    id: Option<int>,
    title: Option<string>,
    name: Option<string>,
    backdropPath: Option<string>,
    posterPath: Option<string>)

  /** `(string)($result['id'] ?? '')`. */
  function IdString(id: Option<int>): string {
    if id.Some? then IntToString(id.value) else ""
  }

  /** `$type ?: ($result['media_type'] ?? null)`: a truthy explicit type overrides the item's own. */
  function EffectiveMediaType(showType: Option<string>, raw: RawResult): Option<string> {
    if OptTruthy(showType) then showType else raw.mediaType
  }

  /** `$backdropPath ?: $posterPath`. */
  function BackgroundPath(raw: RawResult): Option<string> {
    if OptTruthy(raw.backdropPath) then raw.backdropPath else raw.posterPath
  }

  /** The show data one item becomes, or `None` when the formatter skips it. `logo` stands for the
      logo lookup by id and "movie"/"tv". */
  function FormatResult(raw: RawResult, showType: Option<string>, logo: (string, string) -> Option<string>): (d: Option<ShowData>)
    ensures var mt := EffectiveMediaType(showType, raw);
      var isMovie := mt == Some("movie");
      var title := if isMovie then raw.title.GetOr("") else raw.name.GetOr("");
      && (d.Some? <==> (isMovie || mt == Some("tv")) && PhpTruthy(IdString(raw.id)) && PhpTruthy(title)
                       && OptTruthy(BackgroundPath(raw)))
      && (d.Some? ==>
            && d.value.tmdbId == IdString(raw.id)
            && d.value.title == title
            && d.value.formattedTitle == FormatTitle(title)
            && d.value.backgroundImage == ImageBaseUrl + BackgroundPath(raw).value
            && d.value.logoImage == logo(IdString(raw.id), if isMovie then "movie" else "tv")
            && d.value.showType == (if isMovie then "movie" else "series"))
  {
    var mt := EffectiveMediaType(showType, raw);
    if mt != Some("movie") && mt != Some("tv") then None
    else
      var isMovie := mt == Some("movie");
      var title := if isMovie then raw.title.GetOr("") else raw.name.GetOr("");
      var tmdbId := IdString(raw.id);
      if !PhpTruthy(tmdbId) || !PhpTruthy(title) then None
      else
        var background := BackgroundPath(raw);
        if !OptTruthy(background) then None
        else Some(ShowData(tmdbId, title, FormatTitle(title), ImageBaseUrl + background.value,
                           logo(tmdbId, if isMovie then "movie" else "tv"), if isMovie then "movie" else "series"))
  }

  /** A formatted listing entry: typed, with a truthy id and title, its image under the image base
      and its search term derived from its title. */
  predicate IsListingEntry(d: ShowData) {
    && (d.showType == "movie" || d.showType == "series")
    && PhpTruthy(d.tmdbId) && PhpTruthy(d.title)
    && StartsWith(d.backgroundImage, ImageBaseUrl)
    && d.formattedTitle == FormatTitle(d.title)
  }

  /** formatSearchResults: the accepted items, formatted, in input order. */
  function FormattedResults(results: seq<RawResult>, showType: Option<string>, logo: (string, string) -> Option<string>): (r: seq<ShowData>)
    ensures |r| <= |results|
    ensures forall k :: 0 <= k < |r| ==> IsListingEntry(r[k])
  {
    if results == [] then []
    else
      var init := FormattedResults(results[..|results| - 1], showType, logo);
      var d := FormatResult(results[|results| - 1], showType, logo);
      if d.Some? then
        assert (ImageBaseUrl + BackgroundPath(results[|results| - 1]).value)[..|ImageBaseUrl|] == ImageBaseUrl;
        init + [d.value]
      else init
  }

  /** Formatting works item by item: it distributes over concatenation, so input order is kept. */
  lemma {:induction false} FormattedResultsConcat(a: seq<RawResult>, b: seq<RawResult>, showType: Option<string>,
                                                  logo: (string, string) -> Option<string>)
    ensures FormattedResults(a + b, showType, logo) == FormattedResults(a, showType, logo) + FormattedResults(b, showType, logo)
    decreases |b|
  {
    if b == [] {
      assert a + b == a;
    } else {
      assert (a + b)[..|a + b| - 1] == a + b[..|b| - 1];
      assert (a + b)[|a + b| - 1] == b[|b| - 1];
      FormattedResultsConcat(a, b[..|b| - 1], showType, logo);
    }
  }

  /** An explicit type other than "movie", "tv" or a falsy value drops every item. */
  lemma {:induction false} OtherTypeDropsAll(results: seq<RawResult>, showType: string, logo: (string, string) -> Option<string>)
    requires PhpTruthy(showType) && showType != "movie" && showType != "tv"
    ensures FormattedResults(results, Some(showType), logo) == []
  {
    if results != [] {
      OtherTypeDropsAll(results[..|results| - 1], showType, logo);
    }
  }

  /** The formatter as written: a loop that skips rejected items. */
  method FormatSearchResults(results: seq<RawResult>, showType: Option<string>, logo: (string, string) -> Option<string>)
    returns (formatted: seq<ShowData>)
    ensures formatted == FormattedResults(results, showType, logo)
  {
    formatted := [];
    for i := 0 to |results|
      invariant formatted == FormattedResults(results[..i], showType, logo)
    {
      assert results[..i + 1][..i] == results[..i];
      var d := FormatResult(results[i], showType, logo);
      if d.Some? {
        formatted := formatted + [d.value];
      }
    }
    assert results[..|results|] == results;
  }

  // ---------------------------------------------------------------- ratings

  datatype Release = Release(certification: Option<string>)
  datatype ReleaseCountry = ReleaseCountry(iso: string, releaseDates: seq<Release>)

  /** The first truthy certification among a country's releases. */
  function FirstCertification(releases: seq<Release>): (r: Option<string>)
    ensures r.Some? ==> PhpTruthy(r.value) && exists j :: 0 <= j < |releases| && releases[j].certification == r
    ensures r.None? ==> forall j :: 0 <= j < |releases| ==> !OptTruthy(releases[j].certification)
  {
    if releases == [] then None
    else if OptTruthy(releases[0].certification) then releases[0].certification
    else
      var r := FirstCertification(releases[1..]);
      assert forall j :: 1 <= j < |releases| ==> releases[j] == releases[1..][j - 1];
      r
  }

  /** The first truthy certification of the first US entry that has one. */
  function UsCertification(countries: seq<ReleaseCountry>): (r: Option<string>)
    ensures r.Some? ==> PhpTruthy(r.value) && exists i :: (0 <= i < |countries| && countries[i].iso == "US"
                          && FirstCertification(countries[i].releaseDates) == r)
    ensures r.None? ==> forall i :: 0 <= i < |countries| && countries[i].iso == "US" ==>
                          FirstCertification(countries[i].releaseDates).None?
  {
    if countries == [] then None
    else
      var c := countries[0];
      var first := if c.iso == "US" then FirstCertification(c.releaseDates) else None;
      if first.Some? then first
      else
        var r := UsCertification(countries[1..]);
        assert forall i :: 1 <= i < |countries| ==> countries[i] == countries[1..][i - 1];
        r
  }

  /** extractAgeRating's value: the US certification found, else "NR". */
  function AgeRating(countries: seq<ReleaseCountry>): (r: string)
    ensures r == "NR" || exists i :: 0 <= i < |countries| && countries[i].iso == "US"
                                   && FirstCertification(countries[i].releaseDates) == Some(r)
  {
    UsCertification(countries).GetOr("NR")
  }

  /** extractAgeRating as written: nested loops returning at the first hit. */
  method ExtractAgeRating(countries: seq<ReleaseCountry>) returns (rating: string)
    ensures rating == AgeRating(countries)
  {
    for i := 0 to |countries|
      invariant UsCertification(countries) == UsCertification(countries[i..])
    {
      var country := countries[i];
      if country.iso == "US" && country.releaseDates != [] {
        var releases := country.releaseDates;
        for j := 0 to |releases|
          invariant FirstCertification(releases) == FirstCertification(releases[j..])
        {
          assert releases[j..][1..] == releases[j + 1..];
          var cert := releases[j].certification;
          if cert.Some? && PhpTruthy(cert.value) {
            assert releases[j..][0] == releases[j];
            UsCertificationAt(countries, i);
            return cert.value;
          }
        }
        assert releases[|releases|..] == [];
      }
      UsCertificationSkip(countries, i);
    }
    return "NR";
  }

  /** A country without a US certification is skipped. */
  lemma UsCertificationSkip(countries: seq<ReleaseCountry>, i: nat)
    requires i < |countries|
    requires countries[i].iso != "US" || FirstCertification(countries[i].releaseDates).None?
    ensures UsCertification(countries[i..]) == UsCertification(countries[i + 1..])
  {
    assert countries[i..][1..] == countries[i + 1..];
  }

  /** A US country with a certification gives it. */
  lemma UsCertificationAt(countries: seq<ReleaseCountry>, i: nat)
    requires i < |countries| && countries[i].iso == "US"
    requires FirstCertification(countries[i].releaseDates).Some?
    ensures UsCertification(countries[i..]) == FirstCertification(countries[i].releaseDates)
  {
  }

  datatype RatingCountry = RatingCountry(iso: string, rating: Option<string>)

  /** extractTvContentRating: the first US entry's rating (`?? 'NR'`), or "NR" with no US entry. */
  function TvContentRating(countries: seq<RatingCountry>): (r: string)
    ensures (forall i :: 0 <= i < |countries| ==> countries[i].iso != "US") ==> r == "NR"
    ensures forall i :: (0 <= i < |countries| && countries[i].iso == "US"
              && (forall j :: 0 <= j < i ==> countries[j].iso != "US")) ==> r == countries[i].rating.GetOr("NR")
  {
    if countries == [] then "NR"
    else if countries[0].iso == "US" then countries[0].rating.GetOr("NR")
    else
      var rest := countries[1..];
      var r := TvContentRating(rest);
      assert forall i :: (0 <= i < |countries| && countries[i].iso == "US"
              && (forall j :: 0 <= j < i ==> countries[j].iso != "US")) ==> r == countries[i].rating.GetOr("NR") by {
        forall i | 0 <= i < |countries| && countries[i].iso == "US" && (forall j :: 0 <= j < i ==> countries[j].iso != "US")
          ensures r == countries[i].rating.GetOr("NR")
        {
          assert i >= 1 && rest[i - 1] == countries[i];
          assert forall j :: 0 <= j < i - 1 ==> rest[j] == countries[j + 1];
        }
      }
      assert forall i :: 0 <= i < |rest| ==> rest[i] == countries[i + 1];
      r
  }

  // ---------------------------------------------------------------- genres

  datatype Genre = Genre(id: int, name: string)

  predicate NameMatches(g: Genre, name: string) {
    LowerAscii(g.name) == LowerAscii(name)
  }

  /** The id of the first genre whose name matches ignoring ASCII case. */
  function GenreIdFor(genres: seq<Genre>, name: string): (r: Option<int>)
    ensures r.Some? ==> exists k :: 0 <= k < |genres| && NameMatches(genres[k], name) && genres[k].id == r.value
                          && forall j :: 0 <= j < k ==> !NameMatches(genres[j], name)
    ensures r.None? <==> forall k :: 0 <= k < |genres| ==> !NameMatches(genres[k], name)
  {
    if genres == [] then None
    else if NameMatches(genres[0], name) then Some(genres[0].id)
    else
      var r := GenreIdFor(genres[1..], name);
      assert forall k :: 1 <= k < |genres| ==> genres[k] == genres[1..][k - 1];
      GenreIdForShift(genres, name, r);
      r
  }

  lemma GenreIdForShift(genres: seq<Genre>, name: string, r: Option<int>)
    requires genres != [] && !NameMatches(genres[0], name)
    requires r.Some? ==> exists k :: 0 <= k < |genres[1..]| && NameMatches(genres[1..][k], name) && genres[1..][k].id == r.value
                          && forall j :: 0 <= j < k ==> !NameMatches(genres[1..][j], name)
    ensures r.Some? ==> exists k :: 0 <= k < |genres| && NameMatches(genres[k], name) && genres[k].id == r.value
                          && forall j :: 0 <= j < k ==> !NameMatches(genres[j], name)
  {
    if r.Some? {
      var k :| 0 <= k < |genres[1..]| && NameMatches(genres[1..][k], name) && genres[1..][k].id == r.value
               && forall j :: 0 <= j < k ==> !NameMatches(genres[1..][j], name);
      assert genres[k + 1] == genres[1..][k];
      forall j | 0 <= j < k + 1 ensures !NameMatches(genres[j], name) {
        if j > 0 { assert genres[j] == genres[1..][j - 1]; }
      }
    }
  }

  /** The lookup loop with its `break`. */
  method FindGenreId(genres: seq<Genre>, name: string) returns (genreId: Option<int>)
    ensures genreId == GenreIdFor(genres, name)
  {
    genreId := None;
    for i := 0 to |genres|
      invariant GenreIdFor(genres, name) == GenreIdFor(genres[i..], name)
    {
      assert genres[i..][1..] == genres[i + 1..];
      if LowerAscii(genres[i].name) == LowerAscii(name) {
        genreId := Some(genres[i].id);
        break;
      }
    }
  }

  datatype MediaKind = Movie | Tv

  function KindOf(showType: string): MediaKind {
    if showType == "movie" then Movie else Tv
  }

  /** TMDB as seen through the service: every listing is `None` on a failed request. */
  datatype Api = Api(
    genreList: MediaKind -> seq<Genre>,
    popular: MediaKind -> Option<seq<RawResult>>,
    discoverByGenre: (MediaKind, int) -> Option<seq<RawResult>>,
    keywordSearch: string -> Option<seq<int>>,
    discover: (MediaKind, seq<Param>) -> Option<DiscoverPage>,
    logo: (string, string) -> Option<string>)

  /** getPopularShows: the popular list of the kind, formatted with the requested type. */
  function PopularShows(showType: string, api: Api): seq<ShowData> {
    match api.popular(KindOf(showType))
    case None => []
    case Some(results) => FormattedResults(results, Some(showType), api.logo)
  }

  /** getShowsByGenreType: no falsy genre id, no discover request. */
  function ShowsByGenreType(genre: string, showType: string, api: Api): seq<ShowData> {
    var id := GenreIdFor(api.genreList(KindOf(showType)), genre);
    if id.None? || id.value == 0 then []
    else
      match api.discoverByGenre(KindOf(showType), id.value)
      case None => []
      case Some(results) => FormattedResults(results, Some(showType), api.logo)
  }

  /** getShowsByGenre's dispatch. */
  function ShowsByGenre(genre: string, showType: string, api: Api): seq<ShowData> {
    if LowerAscii(genre) == "popular" then PopularShows(showType, api)
    else if showType == "all" then ShowsByGenreType(genre, "movie", api) + ShowsByGenreType(genre, "tv", api)
    else ShowsByGenreType(genre, showType, api)
  }

  /** A genre name that matches nothing gives no results, whatever discover would answer. */
  lemma UnknownGenreMakesNoRequest(genre: string, showType: string, api: Api,
                                   other: (MediaKind, int) -> Option<seq<RawResult>>)
    requires GenreIdFor(api.genreList(KindOf(showType)), genre).None?
    ensures ShowsByGenreType(genre, showType, api) == []
    ensures ShowsByGenreType(genre, showType, api.(discoverByGenre := other)) == []
  {
  }

  /** Type "all" lists the genre's movies followed by its series; the popular genre with type
      "all" is always empty, because the formatter then rejects every item. */
  lemma AllTypeListings(genre: string, api: Api)
    ensures LowerAscii(genre) != "popular" ==>
      ShowsByGenre(genre, "all", api) == ShowsByGenreType(genre, "movie", api) + ShowsByGenreType(genre, "tv", api)
    ensures LowerAscii(genre) == "popular" ==> ShowsByGenre(genre, "all", api) == []
  {
    if LowerAscii(genre) == "popular" {
      var results := api.popular(Tv);
      if results.Some? {
        OtherTypeDropsAll(results.value, "all", api.logo);
      }
    }
  }

  method GetShowsByGenreType(genre: string, showType: string, api: Api) returns (shows: seq<ShowData>)
    ensures shows == ShowsByGenreType(genre, showType, api)
  {
    var genreId := FindGenreId(api.genreList(KindOf(showType)), genre);
    if genreId.None? || genreId.value == 0 {
      return [];
    }
    var response := api.discoverByGenre(KindOf(showType), genreId.value);
    if response.None? {
      return [];
    }
    shows := FormatSearchResults(response.value, Some(showType), api.logo);
  }

  method GetShowsByGenre(genre: string, showType: string, api: Api) returns (shows: seq<ShowData>)
    ensures shows == ShowsByGenre(genre, showType, api)
  {
    if LowerAscii(genre) == "popular" {
      var response := api.popular(KindOf(showType));
      if response.None? {
        return [];
      }
      shows := FormatSearchResults(response.value, Some(showType), api.logo);
      return;
    }
    if showType == "all" {
      var movies := GetShowsByGenreType(genre, "movie", api);
      var series := GetShowsByGenreType(genre, "tv", api);
      return movies + series;
    }
    shows := GetShowsByGenreType(genre, showType, api);
  }

  // ---------------------------------------------------------------- discover listings

  datatype ParamValue = Text(text: string) | Number(number: int) | Flag(flag: bool)
  type Param = (string, ParamValue)

  datatype DiscoverPage = DiscoverPage(page: int, totalPages: int, totalResults: int, results: seq<RawResult>)
  datatype Paged = Paged(page: int, totalPages: int, totalResults: int, results: seq<ShowData>)

  /** `is_numeric` on a string, as PHP 8 reads numeric strings: optional white space, an
      optional sign, digits with an optional decimal point (at least one digit on either side
      of it), an optional exponent `e` or `E` with an optional sign and digits, and optional
      trailing white space. */
  predicate IsNumeric(s: string) {
    var t := DropTrailingSpace(DropLeadingSpace(s));
    IsUnsignedNumber(if t != [] && (t[0] == '+' || t[0] == '-') then t[1..] else t)
  }

  /** The white space of numeric strings: space, tab, line feed, vertical tab, form feed and
      carriage return. */
  predicate IsNumericSpace(c: char) { c == ' ' || ('\t' <= c <= '\r') }

  function DropLeadingSpace(s: string): string {
    if s != [] && IsNumericSpace(s[0]) then DropLeadingSpace(s[1..]) else s
  }

  function DropTrailingSpace(s: string): string {
    if s != [] && IsNumericSpace(s[|s| - 1]) then DropTrailingSpace(s[..|s| - 1]) else s
  }

  /** The length of the leading run of decimal digits. */
  function DigitRun(s: string): (n: nat)
    ensures n <= |s|
  {
    if s != [] && '0' <= s[0] <= '9' then 1 + DigitRun(s[1..]) else 0
  }

  /** `1`, `1.`, `.5` or `1.5`, then an optional exponent. */
  predicate IsUnsignedNumber(u: string) {
    var i := DigitRun(u);
    var m := u[i..];
    if m != [] && m[0] == '.' then
      var f := m[1..];
      var j := DigitRun(f);
      (i > 0 || j > 0) && IsExponentOrEmpty(f[j..])
    else
      i > 0 && IsExponentOrEmpty(m)
  }

  predicate IsExponentOrEmpty(e: string) {
    e == [] ||
    (|e| >= 2 && (e[0] == 'e' || e[0] == 'E') &&
      var d := if e[1] == '+' || e[1] == '-' then e[2..] else e[1..];
      d != [] && DigitRun(d) == |d|)
  }

  predicate AllDigits(d: string) {
    forall k :: 0 <= k < |d| ==> '0' <= d[k] <= '9'
  }

  predicate AllNumericSpace(w: string) {
    forall k :: 0 <= k < |w| ==> IsNumericSpace(w[k])
  }

  lemma {:induction false} DigitRunAll(d: string)
    requires AllDigits(d)
    ensures DigitRun(d) == |d|
  {
    if d != [] {
      DigitRunAll(d[1..]);
    }
  }

  lemma {:induction false} DigitRunConcat(a: string, b: string)
    requires AllDigits(a)
    ensures DigitRun(a + b) == |a| + DigitRun(b)
  {
    if a == [] {
      assert a + b == b;
    } else {
      assert (a + b)[0] == a[0] && (a + b)[1..] == a[1..] + b;
      DigitRunConcat(a[1..], b);
    }
  }

  lemma {:induction false} DropLeadingSpaces(w: string, x: string)
    requires AllNumericSpace(w) && (x == [] || !IsNumericSpace(x[0]))
    ensures DropLeadingSpace(w + x) == x
  {
    if w == [] {
      assert w + x == x;
    } else {
      assert (w + x)[0] == w[0] && (w + x)[1..] == w[1..] + x;
      DropLeadingSpaces(w[1..], x);
    }
  }

  lemma {:induction false} DropTrailingSpaces(x: string, w: string)
    requires AllNumericSpace(w) && (x == [] || !IsNumericSpace(x[|x| - 1]))
    ensures DropTrailingSpace(x + w) == x
  {
    if w == [] {
      assert x + w == x;
    } else {
      var s := x + w;
      assert s[|s| - 1] == w[|w| - 1];
      assert s[..|s| - 1] == x + w[..|w| - 1];
      DropTrailingSpaces(x, w[..|w| - 1]);
    }
  }

  /** A string that neither starts nor ends with white space is left alone by the trimming. */
  lemma Untrimmed(s: string)
    requires s != [] && !IsNumericSpace(s[0]) && !IsNumericSpace(s[|s| - 1])
    ensures DropTrailingSpace(DropLeadingSpace(s)) == s
  {
    DropLeadingSpaces([], s);
    assert [] + s == s;
    DropTrailingSpaces(s, []);
    assert s + [] == s;
  }

  /** White space around a numeric string does not change whether it is numeric. */
  lemma PaddingIgnored(w: string, s: string, w2: string)
    requires AllNumericSpace(w) && AllNumericSpace(w2)
    requires s != [] && !IsNumericSpace(s[0]) && !IsNumericSpace(s[|s| - 1])
    ensures IsNumeric(w + s + w2) == IsNumeric(s)
  {
    assert w + s + w2 == w + (s + w2);
    assert (s + w2)[0] == s[0];
    DropLeadingSpaces(w, s + w2);
    DropTrailingSpaces(s, w2);
    Untrimmed(s);
  }

  /** A run of digits is numeric. */
  lemma DigitsAreNumeric(d: string)
    requires d != [] && AllDigits(d)
    ensures IsNumeric(d)
  {
    Untrimmed(d);
    DigitRunAll(d);
  }

  /** Digits, `e` or `E`, and digits form a numeric string. */
  lemma ExponentIsNumeric(m: string, c: char, e: string)
    requires m != [] && AllDigits(m) && e != [] && AllDigits(e)
    requires c == 'e' || c == 'E'
    ensures IsNumeric(m + [c] + e)
  {
    var x := m + [c] + e;
    assert x[0] == m[0] && x[|x| - 1] == e[|e| - 1];
    Untrimmed(x);
    ExponentIsUnsigned(m, c, e);
  }

  lemma ExponentIsUnsigned(m: string, c: char, e: string)
    requires m != [] && AllDigits(m) && e != [] && AllDigits(e)
    requires c == 'e' || c == 'E'
    ensures IsUnsignedNumber(m + [c] + e)
  {
    var x := m + [c] + e;
    assert x == m + ([c] + e);
    DigitRunConcat(m, [c] + e);
    assert x[|m|..] == [c] + e;
    assert IsExponentOrEmpty([c] + e) by {
      assert ([c] + e)[1..] == e;
      DigitRunAll(e);
    }
  }

  /** Trimming the end keeps a first character that is not white space. */
  lemma {:induction false} DropTrailingKeepsFirst(s: string)
    requires s != [] && !IsNumericSpace(s[0])
    ensures DropTrailingSpace(s) != [] && DropTrailingSpace(s)[0] == s[0]
  {
    if IsNumericSpace(s[|s| - 1]) {
      assert |s| > 1;
      assert s[..|s| - 1][0] == s[0];
      DropTrailingKeepsFirst(s[..|s| - 1]);
    }
  }

  /** A string starting with a letter, as a genre name does, is not numeric. */
  lemma LetterIsNotNumeric(s: string)
    requires s != [] && (('a' <= s[0] <= 'z') || ('A' <= s[0] <= 'Z'))
    ensures !IsNumeric(s)
  {
    DropLeadingSpaces([], s);
    assert [] + s == s;
    DropTrailingKeepsFirst(s);
  }

  /** ` 28` and `28 ` are numeric. */
  lemma PaddedExamples()
    ensures IsNumeric(" 28") && IsNumeric("28 ")
  {
    DigitsAreNumeric("28");
    assert " 28" == " " + "28" + "";
    PaddingIgnored(" ", "28", "");
    assert "28 " == "" + "28" + " ";
    PaddingIgnored("", "28", " ");
  }

  /** `1e3` and `1E3` are numeric. */
  lemma ExponentExamples()
    ensures IsNumeric("1e3") && IsNumeric("1E3")
  {
    assert "1e3" == "1" + ['e'] + "3";
    ExponentIsNumeric("1", 'e', "3");
    assert "1E3" == "1" + ['E'] + "3";
    ExponentIsNumeric("1", 'E', "3");
  }

  /** Genre names resolved to ids: unmatched names are dropped; a matching id of 0 is kept. */
  function NamesToIds(names: seq<string>, genres: seq<Genre>): (ids: seq<string>)
    ensures |ids| <= |names|
    ensures (forall k :: 0 <= k < |names| ==> GenreIdFor(genres, names[k]).Some?) ==> |ids| == |names|
  {
    if names == [] then []
    else
      var id := GenreIdFor(genres, names[|names| - 1]);
      var init := NamesToIds(names[..|names| - 1], genres);
      assert forall k :: 0 <= k < |names| - 1 ==> names[..|names| - 1][k] == names[k];
      if id.Some? then init + [IntToString(id.value)] else init
  }

  /** The genre filter values: numeric input passes through unchanged, names are looked up. */
  function GenreIds(genres: seq<string>, list: seq<Genre>): seq<string> {
    if AnyNumeric(genres) then genres else NamesToIds(genres, list)
  }

  predicate AnyNumeric(genres: seq<string>) {
    exists k :: 0 <= k < |genres| && IsNumeric(genres[k])
  }

  /** The first keyword id of each keyword search that succeeds with results. */
  function KeywordIds(keywords: seq<string>, search: string -> Option<seq<int>>): (ids: seq<int>)
    ensures |ids| <= |keywords|
  {
    if keywords == [] then []
    else
      var found := search(keywords[|keywords| - 1]);
      var init := KeywordIds(keywords[..|keywords| - 1], search);
      if found.Some? && found.value != [] then init + [found.value[0]] else init
  }

  function JoinIds(ids: seq<int>): string {
    Join(seq(|ids|, k requires 0 <= k < |ids| => IntToString(ids[k])), ",")
  }

  function DateKey(kind: MediaKind, bound: string): string {
    (if kind == Movie then "primary_release_date." else "first_air_date.") + bound
  }

  /** A year filter is present when the year is truthy. */
  predicate YearTruthy(year: Option<string>) {
    OptTruthy(year)
  }

  function OptionalParam(present: bool, key: string, value: ParamValue): seq<Param> {
    if present then [(key, value)] else []
  }

  function FixedParams(page: int): seq<Param> {
    [("language", Text("es-ES")), ("page", Number(page)), ("sort_by", Text("popularity.desc")), ("include_adult", Flag(false))]
  }

  /** `$year . '-01-01'` and `$year . '-12-31'`. */
  function YearBound(year: Option<string>, suffix: string): ParamValue {
    Text(year.GetOr("") + suffix)
  }

  /** The discover query: language, page, sort order and adult flag, then the filters that apply,
      in this order. */
  function DiscoverParams(kind: MediaKind, page: int, yearFrom: Option<string>, yearTo: Option<string>,
                          genreIds: seq<string>, keywordIds: seq<int>): (r: seq<Param>)
    ensures |r| >= 4 && r[..4] == FixedParams(page)
  {
    FixedParams(page)
    + OptionalParam(YearTruthy(yearFrom), DateKey(kind, "gte"), YearBound(yearFrom, "-01-01"))
    + OptionalParam(YearTruthy(yearTo), DateKey(kind, "lte"), YearBound(yearTo, "-12-31"))
    + OptionalParam(genreIds != [], "with_genres", Text(Join(genreIds, ",")))
    + OptionalParam(keywordIds != [], "with_keywords", Text(JoinIds(keywordIds)))
  }

  /** Lookup in the query finds the first of its parts holding the key. */
  lemma LookupParts(fixed: seq<Param>, p1: seq<Param>, p2: seq<Param>, p3: seq<Param>, p4: seq<Param>, key: string)
    requires Lookup(fixed, key).None?
    ensures Lookup(fixed + p1 + p2 + p3 + p4, key) ==
      if Lookup(p1, key).Some? then Lookup(p1, key)
      else if Lookup(p2, key).Some? then Lookup(p2, key)
      else if Lookup(p3, key).Some? then Lookup(p3, key)
      else Lookup(p4, key)
  {
    LookupAppend(fixed + p1 + p2 + p3, p4, key);
    LookupAppend(fixed + p1 + p2, p3, key);
    LookupAppend(fixed + p1, p2, key);
    LookupAppend(fixed, p1, key);
  }

  lemma LookupOptional(present: bool, k: string, v: ParamValue, key: string)
    ensures Lookup(OptionalParam(present, k, v), key) == if present && k == key then Some(v) else None
  {
    if present {
      assert [(k, v)][1..] == [];
    }
  }

  /** The fixed parameters hold none of the filter keys. */
  lemma FixedParamsLack(page: int, key: string)
    requires |key| == 11 || |key| >= 13
    requires key != "include_adult"
    ensures Lookup(FixedParams(page), key).None?
  {
    var f := FixedParams(page);
    assert |f[0].0| == 8 && |f[1].0| == 4 && |f[2].0| == 7 && f[3].0 == "include_adult";
    LookupAbsent(f, key);
  }

  /** A key no parameter has is not found. */
  lemma {:induction false} LookupAbsent(params: seq<Param>, key: string)
    requires forall i :: 0 <= i < |params| ==> params[i].0 != key
    ensures Lookup(params, key).None?
  {
    if params != [] {
      assert forall i :: 0 <= i < |params[1..]| ==> params[1..][i] == params[i + 1];
      LookupAbsent(params[1..], key);
    }
  }

  lemma DateKeyShape(kind: MediaKind)
    ensures |DateKey(kind, "gte")| >= 18 && |DateKey(kind, "lte")| == |DateKey(kind, "gte")|
    ensures DateKey(kind, "gte") != DateKey(kind, "lte")
    ensures DateKey(kind, "gte")[0] != 'w' && DateKey(kind, "gte")[0] != 'i'
    ensures DateKey(kind, "lte")[0] != 'w' && DateKey(kind, "lte")[0] != 'i'
  {
    var p := if kind == Movie then "primary_release_date." else "first_air_date.";
    assert DateKey(kind, "gte")[|p|] == 'g' && DateKey(kind, "lte")[|p|] == 'l';
    assert DateKey(kind, "gte")[0] == p[0] && DateKey(kind, "lte")[0] == p[0];
  }

  /** The page parameter is the requested page. */
  lemma DiscoverParamsPage(kind: MediaKind, page: int, yearFrom: Option<string>, yearTo: Option<string>,
                           genreIds: seq<string>, keywordIds: seq<int>)
    ensures DiscoverParams(kind, page, yearFrom, yearTo, genreIds, keywordIds)[..4] == FixedParams(page)
    ensures Lookup(DiscoverParams(kind, page, yearFrom, yearTo, genreIds, keywordIds), "page") == Some(Number(page))
  {
    var f := FixedParams(page);
    var from := OptionalParam(YearTruthy(yearFrom), DateKey(kind, "gte"), YearBound(yearFrom, "-01-01"));
    var to := OptionalParam(YearTruthy(yearTo), DateKey(kind, "lte"), YearBound(yearTo, "-12-31"));
    var g := OptionalParam(genreIds != [], "with_genres", Text(Join(genreIds, ",")));
    var kw := OptionalParam(keywordIds != [], "with_keywords", Text(JoinIds(keywordIds)));
    var rest := from + to + g + kw;
    assert f + from + to + g + kw == f + rest;
    LookupAppend(f, rest, "page");
    assert f[0].0 != "page";
    assert Lookup(f, "page") == Lookup(f[1..], "page");
    assert f[1..][0] == ("page", Number(page));
    assert (f + rest)[..4] == f;
  }

  /** The year bounds are sent exactly when the years are truthy. */
  lemma DiscoverParamsYears(kind: MediaKind, page: int, yearFrom: Option<string>, yearTo: Option<string>,
                            genreIds: seq<string>, keywordIds: seq<int>)
    ensures Lookup(DiscoverParams(kind, page, yearFrom, yearTo, genreIds, keywordIds), DateKey(kind, "gte"))
         == (if YearTruthy(yearFrom) then Some(YearBound(yearFrom, "-01-01")) else None)
    ensures Lookup(DiscoverParams(kind, page, yearFrom, yearTo, genreIds, keywordIds), DateKey(kind, "lte"))
         == (if YearTruthy(yearTo) then Some(YearBound(yearTo, "-12-31")) else None)
  {
    DateKeyShape(kind);
    var gte := DateKey(kind, "gte");
    var lte := DateKey(kind, "lte");
    var from := OptionalParam(YearTruthy(yearFrom), gte, YearBound(yearFrom, "-01-01"));
    var to := OptionalParam(YearTruthy(yearTo), lte, YearBound(yearTo, "-12-31"));
    var g := OptionalParam(genreIds != [], "with_genres", Text(Join(genreIds, ",")));
    var kw := OptionalParam(keywordIds != [], "with_keywords", Text(JoinIds(keywordIds)));
    assert gte != "include_adult" && gte != "with_genres" && gte != "with_keywords" by {
      assert "include_adult"[0] == 'i' && "with_genres"[0] == 'w' && "with_keywords"[0] == 'w';
    }
    assert lte != "include_adult" && lte != "with_genres" && lte != "with_keywords" by {
      assert "include_adult"[0] == 'i' && "with_genres"[0] == 'w' && "with_keywords"[0] == 'w';
    }
    FixedParamsLack(page, gte);
    LookupParts(FixedParams(page), from, to, g, kw, gte);
    LookupOptional(YearTruthy(yearFrom), gte, YearBound(yearFrom, "-01-01"), gte);
    FixedParamsLack(page, lte);
    LookupParts(FixedParams(page), from, to, g, kw, lte);
    LookupOptional(YearTruthy(yearFrom), gte, YearBound(yearFrom, "-01-01"), lte);
    LookupOptional(YearTruthy(yearTo), lte, YearBound(yearTo, "-12-31"), lte);
  }

  /** The genre and keyword filters are sent exactly when there are ids for them. */
  lemma DiscoverParamsGenresAndKeywords(kind: MediaKind, page: int, yearFrom: Option<string>, yearTo: Option<string>,
                                        genreIds: seq<string>, keywordIds: seq<int>)
    ensures Lookup(DiscoverParams(kind, page, yearFrom, yearTo, genreIds, keywordIds), "with_genres")
         == (if genreIds != [] then Some(Text(Join(genreIds, ","))) else None)
    ensures Lookup(DiscoverParams(kind, page, yearFrom, yearTo, genreIds, keywordIds), "with_keywords")
         == (if keywordIds != [] then Some(Text(JoinIds(keywordIds))) else None)
  {
    DateKeyShape(kind);
    var gte := DateKey(kind, "gte");
    var lte := DateKey(kind, "lte");
    var from := OptionalParam(YearTruthy(yearFrom), gte, YearBound(yearFrom, "-01-01"));
    var to := OptionalParam(YearTruthy(yearTo), lte, YearBound(yearTo, "-12-31"));
    var g := OptionalParam(genreIds != [], "with_genres", Text(Join(genreIds, ",")));
    var kw := OptionalParam(keywordIds != [], "with_keywords", Text(JoinIds(keywordIds)));
    assert "with_genres"[0] == 'w' && "with_keywords"[0] == 'w';
    assert "with_genres" != "with_keywords" by { assert "with_genres"[5] != "with_keywords"[5]; }
    assert "with_keywords" != "include_adult" by { assert "with_keywords"[0] != "include_adult"[0]; }
    FixedParamsLack(page, "with_genres");
    LookupParts(FixedParams(page), from, to, g, kw, "with_genres");
    LookupOptional(YearTruthy(yearFrom), gte, YearBound(yearFrom, "-01-01"), "with_genres");
    LookupOptional(YearTruthy(yearTo), lte, YearBound(yearTo, "-12-31"), "with_genres");
    LookupOptional(genreIds != [], "with_genres", Text(Join(genreIds, ",")), "with_genres");
    FixedParamsLack(page, "with_keywords");
    LookupParts(FixedParams(page), from, to, g, kw, "with_keywords");
    LookupOptional(YearTruthy(yearFrom), gte, YearBound(yearFrom, "-01-01"), "with_keywords");
    LookupOptional(YearTruthy(yearTo), lte, YearBound(yearTo, "-12-31"), "with_keywords");
    LookupOptional(genreIds != [], "with_genres", Text(Join(genreIds, ",")), "with_keywords");
    LookupOptional(keywordIds != [], "with_keywords", Text(JoinIds(keywordIds)), "with_keywords");
  }

  /** getAllMovies / getAllSeries: the discover page, or page 1 of 1 with no results on failure. */
  function AllShows(kind: MediaKind, page: int, yearFrom: Option<string>, yearTo: Option<string>,
                    genres: seq<string>, keywords: seq<string>, api: Api): Paged {
    var genreIds := GenreIds(genres, api.genreList(kind));
    var keywordIds := KeywordIds(keywords, api.keywordSearch);
    match api.discover(kind, DiscoverParams(kind, page, yearFrom, yearTo, genreIds, keywordIds))
    case None => Paged(1, 1, 0, [])
    case Some(d) => Paged(d.page, d.totalPages, d.totalResults,
                          FormattedResults(d.results, Some(if kind == Movie then "movie" else "tv"), api.logo))
  }

  /** A failed discover request gives the empty first page. */
  lemma FailedDiscoverIsEmptyPage(kind: MediaKind, page: int, yearFrom: Option<string>, yearTo: Option<string>,
                                  genres: seq<string>, keywords: seq<string>, api: Api)
    requires api.discover(kind, DiscoverParams(kind, page, yearFrom, yearTo, GenreIds(genres, api.genreList(kind)),
                                               KeywordIds(keywords, api.keywordSearch))).None?
    ensures AllShows(kind, page, yearFrom, yearTo, genres, keywords, api) == Paged(1, 1, 0, [])
  {
  }

  /** Numeric genres pass through untouched. */
  lemma NumericGenresPassThrough(genres: seq<string>, list: seq<Genre>, k: nat)
    requires k < |genres| && IsNumeric(genres[k])
    ensures GenreIds(genres, list) == genres
  {
  }

  /** Genre names are looked up one by one: an unmatched name adds nothing, a matched one adds
      its id at the end. */
  lemma {:induction false} GenreNamesResolveInOrder(genres: seq<string>, list: seq<Genre>, name: string)
    requires !AnyNumeric(genres + [name])
    ensures GenreIds(genres + [name], list) == GenreIds(genres, list) +
      (if GenreIdFor(list, name).Some? then [IntToString(GenreIdFor(list, name).value)] else [])
  {
    NamesToIdsSnoc(genres, name, list);
    var all := genres + [name];
    assert !AnyNumeric(genres) by {
      forall k | 0 <= k < |genres| ensures !IsNumeric(genres[k]) {
        assert all[k] == genres[k];
      }
    }
  }

  /** One more name extends the resolved ids by that name's id, if it has one. */
  lemma NamesToIdsSnoc(names: seq<string>, name: string, list: seq<Genre>)
    ensures NamesToIds(names + [name], list) == NamesToIds(names, list) +
      (if GenreIdFor(list, name).Some? then [IntToString(GenreIdFor(list, name).value)] else [])
  {
    assert (names + [name])[..|names|] == names;
  }

  /** The numeric scan with its `break`. */
  method ContainsNumericIds(genres: seq<string>) returns (found: bool)
    ensures found == AnyNumeric(genres)
  {
    found := false;
    for i := 0 to |genres|
      invariant forall k :: 0 <= k < i ==> !IsNumeric(genres[k])
    {
      if IsNumeric(genres[i]) {
        return true;
      }
    }
  }

  /** For each name, the lookup with its `break`; unmatched names add nothing. */
  method MapGenreNames(genres: seq<string>, list: seq<Genre>) returns (genreIds: seq<string>)
    ensures genreIds == NamesToIds(genres, list)
  {
    genreIds := [];
    for i := 0 to |genres|
      invariant genreIds == NamesToIds(genres[..i], list)
    {
      assert genres[..i + 1] == genres[..i] + [genres[i]];
      NamesToIdsSnoc(genres[..i], genres[i], list);
      var genreId := FindGenreId(list, genres[i]);
      if genreId.Some? {
        genreIds := genreIds + [IntToString(genreId.value)];
      }
    }
    assert genres[..|genres|] == genres;
  }

  method ResolveGenreIds(genres: seq<string>, list: seq<Genre>) returns (genreIds: seq<string>)
    ensures genreIds == GenreIds(genres, list)
  {
    var containsNumericIds := ContainsNumericIds(genres);
    if containsNumericIds {
      return genres;
    }
    genreIds := MapGenreNames(genres, list);
  }

  /** The keyword loop: one search per keyword, keeping the first result's id. */
  method CollectKeywordIds(keywords: seq<string>, search: string -> Option<seq<int>>) returns (keywordIds: seq<int>)
    ensures keywordIds == KeywordIds(keywords, search)
  {
    keywordIds := [];
    for i := 0 to |keywords|
      invariant keywordIds == KeywordIds(keywords[..i], search)
    {
      assert keywords[..i + 1][..i] == keywords[..i];
      var found := search(keywords[i]);
      if found.Some? && found.value != [] {
        keywordIds := keywordIds + [found.value[0]];
      }
    }
    assert keywords[..|keywords|] == keywords;
  }

  method GetAllShows(kind: MediaKind, page: int, yearFrom: Option<string>, yearTo: Option<string>,
                     genres: seq<string>, keywords: seq<string>, api: Api) returns (r: Paged)
    ensures r == AllShows(kind, page, yearFrom, yearTo, genres, keywords, api)
  {
    var genreIds: seq<string> := [];
    if genres != [] {
      genreIds := ResolveGenreIds(genres, api.genreList(kind));
    }
    var keywordIds: seq<int> := [];
    if keywords != [] {
      keywordIds := CollectKeywordIds(keywords, api.keywordSearch);
    }
    var params := DiscoverParams(kind, page, yearFrom, yearTo, genreIds, keywordIds);
    var response := api.discover(kind, params);
    if response.None? {
      return Paged(1, 1, 0, []);
    }
    var results := FormatSearchResults(response.value.results, Some(if kind == Movie then "movie" else "tv"), api.logo);
    return Paged(response.value.page, response.value.totalPages, response.value.totalResults, results);
  }
}
