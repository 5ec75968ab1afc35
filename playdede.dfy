/**
  PlaydedeService: finds the Spanish video sources of a show on the Playdede
  site. The site's pages are inputs: a `Site` answers each GET with the parsed
  page (`None` for a non-2xx response), so the search decision procedure, the
  listing link extractor, the player-item filter and the embed-page parser
  are modelled exactly, and HTTP and HTML parsing are not.
 */
module Playdede {
  import opened Wrappers
  import opened Text
  import opened Url

  const DefaultDomain := "https://www6.playdede.link"
  const DefaultCookie := "PLAYDEDE_SESSION=e7792552335cfd7bb16fd4d118978f62; adsCompleted=2; utoken=edcScW33bn5F25uiit5kyyhaUgbkbAF"
  const UserAgent := "Mozilla/5.0 (Windows NT 10.0; Win64; x64) AppleWebKit/537.36 (KHTML, like Gecko) Chrome/91.0.4472.124 Safari/537.36"

  /** The domain discovery page: the text of its first `h1 a` link, if it has one. */
  datatype DiscoveryPage = DiscoveryPage(h1Link: Option<string>)

  /** getCurrentDomain, given the discovery page (`None`: the request failed or threw). */
  function CurrentDomain(discovery: Option<DiscoveryPage>): (d: string)
    ensures discovery.Some? && discovery.value.h1Link.Some? ==> d == "https://" + discovery.value.h1Link.value
    ensures discovery.None? || discovery.value.h1Link.None? ==> d == DefaultDomain
  {
    match discovery
    case Some(DiscoveryPage(Some(text))) =>
      if text == "www6.playdede.link" then DefaultDomain else "https://" + text
    case _ => DefaultDomain
  }

  /** An `<article>` of the search listing: the href attribute of its first anchor, if it has one
      (an anchor without href gives ""). */
  datatype Article = Article(href: Option<string>)

  /** A search results page: the articles of the `" archive-content"` div, if the page has that div. */
  datatype SearchPage = SearchPage(archiveContent: Option<seq<Article>>)

  /** A `<div>` of a show page, by the three attributes the player filter reads ("" when absent). */
  datatype PlayerDiv = PlayerDiv(classAttr: string, lang: string, loadPlayer: string)

  /** The remote site and the query codec: each page function answers the GET of a URL with the
      parsed page, or `None` for a non-2xx response. `urlencode` and `reencode` stand for PHP's
      `urlencode` and the `parse_str`/`http_build_query` round trip. */
  datatype Site = Site(
    search: string -> Option<SearchPage>,
    showPage: string -> Option<seq<PlayerDiv>>,
    embedPage: string -> Option<string>,
    urlencode: string -> string,
    reencode: string -> string)

  /** The result of getPlayerItems: `NoItems` is the empty PHP array returned on failure,
      `Found(s)` is `['sources' => s]`. */
  datatype PlayerItems = NoItems | Found(sources: seq<string>)

  /** The result of getShowSources. `Failed` is `[]`, `Sources(s)` is `['sources' => s]`,
      `NestedSources(s)` is the episode result `['sources' => ['sources' => s]]`, and
      `Error(m)` is `['error' => m]`. */
  datatype ShowSourcesResult = Failed | Sources(sources: seq<string>) | NestedSources(sources: seq<string>) | Error(message: string)

  function AsShowSources(items: PlayerItems): (r: ShowSourcesResult)
    ensures items.NoItems? <==> r.Failed?
    ensures items.Found? ==> r == Sources(items.sources)
  {
    match items
    case NoItems => Failed
    case Found(s) => Sources(s)
  }

  // ---------------------------------------------------------------- search listing

  /** An href that does not start with "http" is joined to the base URL with exactly one slash. */
  function ResolveHref(base: string, href: string): (r: string)
    ensures StartsWith(href, "http") ==> r == href
    ensures !StartsWith(href, "http") ==>
      var b := TrimRight(base, '/');
      var h := TrimLeft(href, '/');
      && r == b + "/" + h
      && (b == [] || b[|b| - 1] != '/') && (h == [] || h[0] != '/')
  {
    if StartsWith(href, "http") then href else TrimRight(base, '/') + "/" + TrimLeft(href, '/')
  }

  /** An absolute URL: either the site gave one, or it is joined to the base. */
  predicate IsAbsolute(base: string, u: string) {
    StartsWith(u, "http") || StartsWith(u, TrimRight(base, '/') + "/")
  }

  /** The result URLs of a listing, in article order. */
  function Links(base: string, articles: seq<Article>): seq<string> {
    if articles == [] then []
    else
      var last := articles[|articles| - 1];
      var init := Links(base, articles[..|articles| - 1]);
      if OptTruthy(last.href) then init + [ResolveHref(base, last.href.value)] else init
  }

  /** One result per article with a truthy href, never more than the articles, and every result
      an absolute URL. */
  lemma {:induction false} LinksAreAbsolute(base: string, articles: seq<Article>)
    ensures |Links(base, articles)| <= |articles|
    ensures forall k :: 0 <= k < |Links(base, articles)| ==> IsAbsolute(base, Links(base, articles)[k])
    ensures (forall j :: 0 <= j < |articles| ==> OptTruthy(articles[j].href)) ==> |Links(base, articles)| == |articles|
  {
    if articles != [] {
      var init := articles[..|articles| - 1];
      LinksAreAbsolute(base, init);
      assert forall j :: 0 <= j < |init| ==> init[j] == articles[j];
      var last := articles[|articles| - 1];
      if OptTruthy(last.href) {
        var h := last.href.value;
        assert StartsWith(h, "http") ==> StartsWith(ResolveHref(base, h), "http");
        assert !StartsWith(h, "http") ==> StartsWith(ResolveHref(base, h), TrimRight(base, '/') + "/");
      }
    }
  }

  /** performSearch: the request URL is rebuilt; an exception, a failed request or a page without
      the archive div gives no results. */
  function SearchResults(base: string, searchUrl: string, site: Site): seq<string> {
    match RequestUrl(searchUrl, site.reencode)
    case None => []
    case Some(url) =>
      match site.search(url)
      case Some(SearchPage(Some(articles))) => Links(base, articles)
      case _ => []
  }

  // ---------------------------------------------------------------- embed page

  function SkipPcreSpaces(s: string, i: nat): (k: nat)
    requires i <= |s|
    ensures i <= k <= |s|
    ensures forall j :: i <= j < k ==> IsPcreSpace(s[j])
    ensures k < |s| ==> !IsPcreSpace(s[k])
    decreases |s| - i
  {
    if i < |s| && IsPcreSpace(s[i]) then SkipPcreSpaces(s, i + 1) else i
  }

  function SkipToQuote(s: string, i: nat): (k: nat)
    requires i <= |s|
    ensures i <= k <= |s|
    ensures forall j :: i <= j < k ==> s[j] != '"'
    ensures k < |s| ==> s[k] == '"'
    decreases |s| - i
  {
    if i < |s| && s[i] != '"' then SkipToQuote(s, i + 1) else i
  }

  /** The capture of `var\s+url\s*=\s*"([^"]+)"` when a match starts at `i`. Each part is a maximal
      run or a literal, so from a given start the pattern matches in at most one way. */
  function UrlAssignmentAt(s: string, i: nat): (r: Option<string>)
    requires i <= |s|
    ensures r.Some? ==> r.value != [] && forall j :: 0 <= j < |r.value| ==> r.value[j] != '"'
  {
    if !OccursAt(s, "var", i) then None
    else
      var a := SkipPcreSpaces(s, i + 3);
      if a == i + 3 || !OccursAt(s, "url", a) then None
      else
        var b := SkipPcreSpaces(s, a + 3);
        if b == |s| || s[b] != '=' then None
        else
          var c := SkipPcreSpaces(s, b + 1);
          if c == |s| || s[c] != '"' then None
          else
            var d := SkipToQuote(s, c + 1);
            if d == c + 1 || d == |s| then None else Some(s[c + 1..d])
  }

  /** `preg_match`: the capture of the leftmost match at or after `from`. */
  function FirstUrlAssignment(s: string, from: nat): (r: Option<string>)
    requires from <= |s|
    ensures r.Some? ==> r.value != [] && forall j :: 0 <= j < |r.value| ==> r.value[j] != '"'
    decreases |s| - from
  {
    if UrlAssignmentAt(s, from).Some? then UrlAssignmentAt(s, from)
    else if from == |s| then None
    else FirstUrlAssignment(s, from + 1)
  }

  /** Null means that no start position at or after `from` matches. */
  lemma {:induction false} NoUrlAssignment(s: string, from: nat)
    requires from <= |s|
    ensures FirstUrlAssignment(s, from).None? <==> forall j :: from <= j <= |s| ==> UrlAssignmentAt(s, j).None?
    decreases |s| - from
  {
    if UrlAssignmentAt(s, from).None? && from < |s| {
      NoUrlAssignment(s, from + 1);
    }
  }

  /** A capture found is that of the leftmost matching start position. */
  lemma {:induction false} FirstUrlAssignmentIsLeftmost(s: string, from: nat)
    requires from <= |s|
    requires FirstUrlAssignment(s, from).Some?
    ensures exists i :: from <= i <= |s| && UrlAssignmentAt(s, i) == FirstUrlAssignment(s, from)
                          && forall j :: from <= j < i ==> UrlAssignmentAt(s, j).None?
  {
    var i := LeftmostStart(s, from);
  }

  /** The start position of the match `preg_match` reports. */
  lemma {:induction false} LeftmostStart(s: string, from: nat) returns (i: nat)
    requires from <= |s|
    requires FirstUrlAssignment(s, from).Some?
    ensures from <= i <= |s| && UrlAssignmentAt(s, i) == FirstUrlAssignment(s, from)
    ensures forall j :: from <= j < i ==> UrlAssignmentAt(s, j).None?
    decreases |s| - from
  {
    var here := UrlAssignmentAt(s, from);
    if here.None? {
      i := LeftmostStart(s, from + 1);
      forall j | from <= j < i ensures UrlAssignmentAt(s, j).None? {
        if j == from {
          assert UrlAssignmentAt(s, j) == here;
        }
      }
    } else {
      i := from;
    }
  }

  /** getVideoSource: the player URL assigned in the embed page's script, or null. */
  function VideoSource(embedUrl: string, site: Site): (r: Option<string>)
    ensures r.Some? ==> r.value != [] && forall j :: 0 <= j < |r.value| ==> r.value[j] != '"'
  {
    match RequestUrl(embedUrl, site.reencode)
    case None => None
    case Some(url) =>
      match site.embedPage(url)
      case None => None
      case Some(html) => FirstUrlAssignment(html, 0)
  }

  // ---------------------------------------------------------------- player items

  /** The XPath selection `//div[contains(@class, 'playerItem') and @data-lang='esp']`. */
  predicate IsSpanishPlayer(d: PlayerDiv) {
    Contains(d.classAttr, "playerItem") && d.lang == "esp"
  }

  function SpanishPlayers(divs: seq<PlayerDiv>): (r: seq<PlayerDiv>)
    ensures |r| <= |divs|
    ensures forall k :: 0 <= k < |r| ==> IsSpanishPlayer(r[k]) && r[k] in divs
    ensures forall d :: d in divs && IsSpanishPlayer(d) ==> d in r
  {
    if divs == [] then []
    else
      var rest := SpanishPlayers(divs[1..]);
      if IsSpanishPlayer(divs[0]) then [divs[0]] + rest else rest
  }

  /** The embed page of one player. */
  const EmbedSize := "&width=752&height=585"

  function EmbedUrl(base: string, id: string): string {
    base + "/embed.php?id=" + (id + EmbedSize)
  }

  /** The source one selected player contributes: none unless its id and its video source are truthy. */
  function PlayerSource(base: string, d: PlayerDiv, site: Site): seq<string> {
    if PhpTruthy(d.loadPlayer) then
      var src := VideoSource(EmbedUrl(base, d.loadPlayer), site);
      if OptTruthy(src) then [src.value] else []
    else []
  }

  /** The sources of the selected players, in document order. */
  function PlayerSources(base: string, players: seq<PlayerDiv>, site: Site): (r: seq<string>)
    ensures |r| <= |players|
    ensures forall k :: 0 <= k < |r| ==> PhpTruthy(r[k])
  {
    if players == [] then []
    else PlayerSources(base, players[..|players| - 1], site) + PlayerSource(base, players[|players| - 1], site)
  }

  /** getPlayerItems: `NoItems` on an exception or a failed request, otherwise the sources. */
  function PlayerItemsOf(base: string, url: string, site: Site): PlayerItems {
    match RequestUrl(url, site.reencode)
    case None => NoItems
    case Some(u) =>
      match site.showPage(u)
      case None => NoItems
      case Some(divs) => Found(PlayerSources(base, SpanishPlayers(divs), site))
  }

  // ---------------------------------------------------------------- decision procedure

  /** The first search term: the title with each space replaced by an underscore. */
  function SearchTerm(title: string): (t: string)
    ensures |t| == |title| && forall i :: 0 <= i < |t| ==> t[i] != ' '
    ensures forall i :: 0 <= i < |t| ==> t[i] == (if title[i] == ' ' then '_' else title[i])
  {
    ReplaceChar(title, ' ', '_')
  }

  function SearchUrl(base: string, term: string, site: Site): string {
    base + "/search?s=" + site.urlencode(term)
  }

  function EpisodeUrl(base: string, slug: string, season: string, episode: string): string {
    base + "/episodios/" + slug + "-" + season + "x" + episode + "/"
  }

  /** getEpisodeSources: the second template is tried only when the first call failed. */
  function EpisodeSources(base: string, term: string, tmdbId: string, season: string, episode: string, site: Site): (r: ShowSourcesResult)
    ensures r.NestedSources? || r == Error("No sources found")
  {
    var first := PlayerItemsOf(base, EpisodeUrl(base, term, season, episode), site);
    var items := if first.NoItems? then PlayerItemsOf(base, EpisodeUrl(base, term + "_" + tmdbId, season, episode), site) else first;
    match items
    case NoItems => Error("No sources found")
    case Found(s) => NestedSources(s)
  }

  predicate IsEpisodic(showType: string) {
    showType == "series" || showType == "anime"
  }

  /** getShowSources. */
  function ShowSources(base: string, title: string, tmdbId: string, showType: string,
                       season: Option<string>, episode: Option<string>, site: Site): (r: ShowSourcesResult)
    ensures r.Error? ==> r.message == "Show not found" || r.message == "No sources found"
  {
    var term := SearchTerm(title);
    var first := SearchResults(base, SearchUrl(base, term, site), site);
    if |first| == 1 then AsShowSources(PlayerItemsOf(base, first[0], site))
    else
      var second := SearchResults(base, SearchUrl(base, term + "_" + tmdbId, site), site);
      if second == [] then Error("Show not found")
      else if IsEpisodic(showType) && season.Some? && episode.Some? then
        EpisodeSources(base, term, tmdbId, season.value, episode.value, site)
      else AsShowSources(PlayerItemsOf(base, second[0], site))
  }

  /** One search result: its URL is used at once, with no second search and no episode branch,
      for every type, season and episode, and even when it yields no sources. */
  lemma ShowSourcesFastPath(base: string, title: string, tmdbId: string, showType: string,
                            season: Option<string>, episode: Option<string>, site: Site)
    requires |SearchResults(base, SearchUrl(base, SearchTerm(title), site), site)| == 1
    ensures var url := SearchResults(base, SearchUrl(base, SearchTerm(title), site), site)[0];
      ShowSources(base, title, tmdbId, showType, season, episode, site) == AsShowSources(PlayerItemsOf(base, url, site))
  {
  }

  /** Which outcome comes from where: the only error messages are the two fixed ones, "Show not
      found" exactly when neither search found a unique or any result, and a nested result only
      from the episode branch. */
  lemma ShowSourcesOutcomes(base: string, title: string, tmdbId: string, showType: string,
                            season: Option<string>, episode: Option<string>, site: Site)
    ensures var r := ShowSources(base, title, tmdbId, showType, season, episode, site);
      var term := SearchTerm(title);
      var first := SearchResults(base, SearchUrl(base, term, site), site);
      var second := SearchResults(base, SearchUrl(base, term + "_" + tmdbId, site), site);
      && (r == Error("Show not found") <==> |first| != 1 && second == [])
      && (r.Error? ==> r.message == "Show not found" || r.message == "No sources found")
      && (r.NestedSources? ==> IsEpisodic(showType) && season.Some? && episode.Some?)
      && (|first| != 1 && second != [] && IsEpisodic(showType) && season.Some? && episode.Some? ==>
            r == EpisodeSources(base, term, tmdbId, season.value, episode.value, site))
      && (|first| != 1 && second != [] && !(IsEpisodic(showType) && season.Some? && episode.Some?) ==>
            r == AsShowSources(PlayerItemsOf(base, second[0], site)))
  {
  }

  /** The episode templates in order: the qualified one is requested only when the plain one failed,
      and a plain result with no sources is still a success. */
  lemma EpisodeTemplateOrder(base: string, term: string, tmdbId: string, season: string, episode: string, site: Site)
    ensures var first := PlayerItemsOf(base, EpisodeUrl(base, term, season, episode), site);
      var second := PlayerItemsOf(base, EpisodeUrl(base, term + "_" + tmdbId, season, episode), site);
      var r := EpisodeSources(base, term, tmdbId, season, episode, site);
      && (first.Found? ==> r == NestedSources(first.sources))
      && (first.NoItems? && second.Found? ==> r == NestedSources(second.sources))
      && (first.NoItems? && second.NoItems? ==> r == Error("No sources found"))
  {
  }

  /** A base `scheme://host` followed by a literal `path?key` and the rest of the query is
      requested at `scheme://host path?` with the re-encoded query `key rest`. */
  lemma {:induction false} LiteralRequestUrl(scheme: string, host: string, lit: string, path: string, pathQ: string,
                                             key: string, rest: string, reencode: string -> string)
    requires lit == path + "?" + key && pathQ == path + "?"
    requires IsScheme(scheme) && IsHost(host)
    requires NoneOf(key, IsFragmentStart) && NoneOf(rest, IsFragmentStart)
    requires path != [] && path[0] == '/' && NoneOf(path, IsPathStop)
    ensures RequestUrl(scheme + "://" + host + lit + rest, reencode)
         == Some(scheme + "://" + host + pathQ + reencode(key + rest))
  {
    NoneOfConcat(key, rest, IsFragmentStart);
    var b := scheme + "://" + host;
    BaseRequestUrl(b, scheme, host, path, key + rest, reencode);
    Regroup(b, path, "?", key, rest);
    RegroupPath(b, path, "?", reencode(key + rest));
  }

  /** The rebuild of `b path ? query` for a base `b` of the form `scheme://host`. */
  lemma BaseRequestUrl(b: string, scheme: string, host: string, path: string, query: string, reencode: string -> string)
    requires b == scheme + "://" + host
    requires IsScheme(scheme) && IsHost(host)
    requires NoneOf(query, IsFragmentStart)
    requires path != [] && path[0] == '/' && NoneOf(path, IsPathStop)
    ensures RequestUrl(b + path + "?" + query, reencode) == Some(b + path + "?" + reencode(query))
  {
    RebuildPlain(scheme, host, path, query, reencode);
  }

  lemma RegroupPath(b: string, p: string, q: string, r: string)
    ensures b + (p + q) + r == b + p + q + r
  {
  }

  lemma Regroup(b: string, p: string, q: string, k: string, r: string)
    ensures b + (p + q + k) + r == b + p + q + (k + r)
  {
  }

  /** The embed page of a player is requested at `{base}/embed.php?` followed by the re-encoded
      fixed query, for a base URL of the form `scheme://host` and an id without `#`. */
  lemma EmbedRequestUrl(scheme: string, host: string, id: string, reencode: string -> string)
    requires IsScheme(scheme)
    requires IsHost(host) && NoneOf(id, IsFragmentStart)
    ensures RequestUrl(EmbedUrl(scheme + "://" + host, id), reencode)
         == Some(scheme + "://" + host + "/embed.php?" + reencode("id=" + (id + EmbedSize)))
  {
    NoneOfConcat(id, EmbedSize, IsFragmentStart);
    LiteralRequestUrl(scheme, host, "/embed.php?id=", "/embed.php", "/embed.php?", "id=", id + EmbedSize, reencode);
  }

  /** A search is requested at `{base}/search?` followed by the re-encoded `s=` query. */
  lemma SearchRequestUrl(scheme: string, host: string, term: string, site: Site)
    requires IsScheme(scheme)
    requires IsHost(host) && NoneOf(site.urlencode(term), IsFragmentStart)
    ensures RequestUrl(SearchUrl(scheme + "://" + host, term, site), site.reencode)
         == Some(scheme + "://" + host + "/search?" + site.reencode("s=" + site.urlencode(term)))
  {
    LiteralRequestUrl(scheme, host, "/search?s=", "/search", "/search?", "s=", site.urlencode(term), site.reencode);
  }

  // ---------------------------------------------------------------- the service

  class PlaydedeService {
    const baseUrl: string
    const cookie: string
    const headers: seq<(string, string)>

    /** The base URL comes from domain discovery; the cookie from the environment, with a default. */
    constructor (discovery: Option<DiscoveryPage>, cookieEnv: Option<string>)
      ensures baseUrl == CurrentDomain(discovery)
      ensures cookie == cookieEnv.GetOr(DefaultCookie)
      ensures headers == [("Cookie", cookie), ("User-Agent", UserAgent)]
    {
      baseUrl := CurrentDomain(discovery);
      cookie := cookieEnv.GetOr(DefaultCookie);
      headers := [("Cookie", cookieEnv.GetOr(DefaultCookie)), ("User-Agent", UserAgent)];
    }

    method PerformSearch(searchUrl: string, site: Site) returns (results: seq<string>)
      ensures results == SearchResults(baseUrl, searchUrl, site)
    {
      var url := RequestUrl(searchUrl, site.reencode);
      if url.None? {
        return [];
      }
      var page := site.search(url.value);
      if page.None? || page.value.archiveContent.None? {
        return [];
      }
      results := CollectLinks(page.value.archiveContent.value);
    }

    /** The loop of performSearch over the listed articles. */
    method CollectLinks(articles: seq<Article>) returns (results: seq<string>)
      ensures results == Links(baseUrl, articles)
    {
      results := [];
      for i := 0 to |articles|
        invariant results == Links(baseUrl, articles[..i])
      {
        assert articles[..i + 1][..i] == articles[..i];
        var href := articles[i].href;
        if href.Some? && PhpTruthy(href.value) {
          results := results + [ResolveHref(baseUrl, href.value)];
        }
      }
      assert articles[..|articles|] == articles;
    }

    method GetPlayerItems(url: string, site: Site) returns (items: PlayerItems)
      ensures items == PlayerItemsOf(baseUrl, url, site)
    {
      var u := RequestUrl(url, site.reencode);
      if u.None? {
        return NoItems;
      }
      var page := site.showPage(u.value);
      if page.None? {
        return NoItems;
      }
      var sources := CollectSources(SpanishPlayers(page.value), site);
      return Found(sources);
    }

    /** The loop of getPlayerItems over the selected players. */
    method CollectSources(players: seq<PlayerDiv>, site: Site) returns (sources: seq<string>)
      ensures sources == PlayerSources(baseUrl, players, site)
    {
      sources := [];
      for i := 0 to |players|
        invariant sources == PlayerSources(baseUrl, players[..i], site)
      {
        assert players[..i + 1][..i] == players[..i];
        var id := players[i].loadPlayer;
        if PhpTruthy(id) {
          var src := VideoSource(EmbedUrl(baseUrl, id), site);
          if src.Some? && PhpTruthy(src.value) {
            sources := sources + [src.value];
          }
        }
      }
      assert players[..|players|] == players;
    }

    method GetEpisodeSources(term: string, tmdbId: string, season: string, episode: string, site: Site)
      returns (r: ShowSourcesResult)
      ensures r == EpisodeSources(baseUrl, term, tmdbId, season, episode, site)
    {
      var sources := GetPlayerItems(EpisodeUrl(baseUrl, term, season, episode), site);
      if sources.NoItems? {
        sources := GetPlayerItems(EpisodeUrl(baseUrl, term + "_" + tmdbId, season, episode), site);
      }
      if sources.NoItems? {
        return Error("No sources found");
      }
      return NestedSources(sources.sources);
    }

    method GetShowSources(title: string, tmdbId: string, showType: string,
                          season: Option<string>, episode: Option<string>, site: Site)
      returns (r: ShowSourcesResult)
      ensures r == ShowSources(baseUrl, title, tmdbId, showType, season, episode, site)
    {
      var term := ReplaceChar(title, ' ', '_');
      var results := PerformSearch(SearchUrl(baseUrl, term, site), site);
      if |results| == 1 {
        var items := GetPlayerItems(results[0], site);
        return AsShowSources(items);
      }
      results := PerformSearch(SearchUrl(baseUrl, term + "_" + tmdbId, site), site);
      if results == [] {
        return Error("Show not found");
      }
      if (showType == "series" || showType == "anime") && season.Some? && episode.Some? {
        r := GetEpisodeSources(term, tmdbId, season.value, episode.value, site);
        return;
      }
      var items := GetPlayerItems(results[0], site);
      return AsShowSources(items);
    }
  }
}
