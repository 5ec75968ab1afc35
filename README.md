# Lumen core, modelled in Dafny

Lumen is a streaming catalogue. A Laravel backend does three jobs:

- It finds a show's video sources on the Playdede site. It searches by a normalised title, scrapes the result listing, reads the Spanish player entries and pulls the stream URL out of each embed page.
- It lists shows from TMDB.
- It keeps each user's favourites and show lists.

A Puppeteer service opens a player page in a headless browser and scans the DOM for an `.m3u8` playlist. A Vue frontend keeps listings in time-stamped caches, with filters and pagination; it also holds the signed-in user and guards the routes.

This project models the core of those pieces and proves properties of the model:

- The Playdede search decision procedure and its scrapers.
- The browser service's launch policy, redirect tracking, DOM-scan priority and endpoint.
- Title normalisation.
- The TMDB formatting, rating, genre and discover-filter helpers.
- The favourites and show-list controllers.
- The movies store.
- The four listing and search composables.
- The auth store and the router guards.

How the model is built:

- Pure decisions are functions, with lemmas about them.
- Loops are methods proved equal to those functions.
- A store or composable whose fields change in place is a `class`. Each such class has a `State()` snapshot, and each of its methods is proved to produce the state a specification function computes.

What becomes a parameter:

- Network responses, DOM snapshots and browser runs are inputs (arrow-typed oracles or outcome records).
- `Date.now()`, the current year, `JSON.stringify`, `encodeURIComponent`, `urlencode` and the shuffle before a random pick are inputs too.

Modules:

- `Wrappers`, `Text`, `Frontend` and `Collections` are shared helpers.
- Every other module follows one source file: `ShowList`, `Url`, `Playdede`, `DomScan`, `M3u8Service`, `Tmdb`, `Favorites`, `ShowLists`, `MoviesStore`, `UseMovies`, `ShowsCollection`, `ContentCollection`, `UseSearch`, `AuthStore` and `Guards`.

## Model

| member | source | states |
|---|---|---|
| ShowList.FormatTitle | backend/app/Models/ShowList.php:40-58 | formatTitle: deleting characters and collapsing white-space runs never lengthens the title; its content is stated by the lemmas below |
| ShowList.FormatTitleIsToken | backend/app/Models/ShowList.php:40-58 | the normalised title has no accented letter, no listed special character and no white space, has no ASCII capital, and is never longer than the title |
| ShowList.FormatTitleIdempotent | backend/app/Models/ShowList.php:40-58 | normalising a normalised title changes nothing |
| ShowList.FormatTitleDeletesThenCollapses | backend/app/Models/ShowList.php:40-58 | for every title, normalisation is one deletion of the accented and special characters (nothing is transliterated), then the white-space collapse, then lower-casing |
| ShowList.StripAppend | backend/app/Models/ShowList.php:43-52 | deletion works character by character, so the surviving characters keep their order |
| ShowList.TwoWordTitle | backend/app/Models/ShowList.php:40-58 | two words separated by a run of white space normalise to the two normalised words joined by one `_`, in their order |
| ShowList.RemovedCharacterVanishes | backend/app/Models/ShowList.php:43-57 | in a title without white space, an accented or special character is deleted without a trace: the result is the normalised text before it followed by the normalised text after it |
| ShowList.AccentsAreDeleted | backend/app/Models/ShowList.php:43-57 | "café ñu" normalises to "caf_u": the accented letters are deleted, not replaced by `e` and `n` |
| ShowList.FormatTitleDeletesOnly | backend/app/Models/ShowList.php:42-57 | for a title without white space, normalisation only deletes the accented and special characters and lower-cases the rest |
| ShowList.Strip | backend/app/Models/ShowList.php:43-52 | each `preg_replace(..., '')` keeps only characters outside its class, all taken from the input, and never lengthens it |
| ShowList.CollapseSpaces | backend/app/Models/ShowList.php:55 | every run of `\s` becomes one `_`: no white space remains, every other character comes from the input |
| ShowList.StripTwice | backend/app/Models/ShowList.php:43-52 | two deletions in a row are one deletion of the union of their classes |
| ShowList.FormatShowData | backend/app/Models/ShowList.php:28-38 | the stored show copies id, title, images and type, and its formatted title is the normalised title |
| Text.TrimLeft | backend/app/Services/PlaydedeService.php:209 | `ltrim` removes exactly the leading run of the character |
| Text.TrimRight | backend/app/Services/PlaydedeService.php:209 | `rtrim` removes exactly the trailing run of the character |
| Text.LowerAscii | backend/app/Models/ShowList.php:57 | `strtolower` maps each character through ASCII lower-casing and keeps the length |
| Url.FindFirst | backend/app/Services/PlaydedeService.php:162-167 | the index of the first stop character, with none before it |
| Url.FindLast | backend/app/Services/PlaydedeService.php:162-163 | the index of the last given character, with none after it, or -1 when there is none |
| Url.ParseUrl | backend/app/Services/PlaydedeService.php:162-163 | parse_url of a URL: none when PHP returns false, otherwise its parts, and a query is only ever found in a URL that contains `?`; what the parts are is stated by Url.ParseQueryUrl, Url.UserinfoIsDropped and Url.BadPortIsRequestedAsGiven |
| Url.DropUserinfo | backend/app/Services/PlaydedeService.php:162-163 | everything up to the last `@` of the authority is user information, and the rest is the host and port |
| Url.HostDropsPort | backend/app/Services/PlaydedeService.php:162-163 | a host followed by no port, or by a port `parse_url` accepts, is read as the host alone |
| Url.ParseQueryUrl | backend/app/Services/PlaydedeService.php:162-163 | `parse_url` of scheme, user information, host, port, path, query and fragment gives back the scheme, the host without user information or port, the path and the query |
| Url.RequestUrl | backend/app/Services/PlaydedeService.php:162-167 | a URL that `parse_url` rejects, one without a query, and one without `?` are requested as given |
| Url.RebuildDropsUserPortFragment | backend/app/Services/PlaydedeService.php:162-167 | a URL with a query is rebuilt as scheme, `://`, host, path, `?` and the re-encoded query; the user information, the port and the fragment are dropped |
| Url.RejectedUrlIsRequestedAsGiven | backend/app/Services/PlaydedeService.php:162-167 | an empty host, or a port `parse_url` rejects (over five characters, no digit for `strtol`, a value outside 0 to 65535), leaves no query key, so the URL is requested unchanged |
| Url.UserinfoIsDropped | backend/app/Services/PlaydedeService.php:162-167 | `https://user:pw@example.com/search?s=x` is requested at `https://example.com/search?` and the re-encoded query |
| Url.BadPortIsRequestedAsGiven | backend/app/Services/PlaydedeService.php:162-167 | `https://example.com:abc/p?q=1` is requested unchanged |
| Url.RebuildPlain | backend/app/Services/PlaydedeService.php:234-239 | a URL with no port or fragment is requested with only its query re-encoded |
| Playdede.CurrentDomain | backend/app/Services/PlaydedeService.php:32-65 | the domain is `https://` plus the discovery page's link text when there is one, else the default domain |
| Playdede.PlaydedeService.constructor | backend/app/Services/PlaydedeService.php:16-27 | base URL from domain discovery, the cookie from the environment or the built-in default, and the two request headers |
| Playdede.ResolveHref | backend/app/Services/PlaydedeService.php:208-210 | an href starting with `http` is kept; any other is joined to the base with exactly one slash |
| Playdede.LinksAreAbsolute | backend/app/Services/PlaydedeService.php:200-218 | one absolute URL per article with a truthy href, never more than the articles, all when every href is truthy |
| Playdede.PlaydedeService.PerformSearch | backend/app/Services/PlaydedeService.php:158-225 | the scraping loop returns the listing's resolved links, or `[]` on a failed response or a missing archive div |
| Playdede.PlaydedeService.CollectLinks | backend/app/Services/PlaydedeService.php:200-215 | the loop over the articles collects, in order, the resolved href of every article whose link has a truthy href |
| Playdede.VideoSource | backend/app/Services/PlaydedeService.php:287-327 | getVideoSource: a player URL is returned only from a successful embed page, and it is a non-empty run without a double quote (the `([^"]+)` capture) |
| Playdede.NoUrlAssignment | backend/app/Services/PlaydedeService.php:313 | the embed page has no `var url = "..."` match exactly when no position starts one |
| Playdede.FirstUrlAssignmentIsLeftmost | backend/app/Services/PlaydedeService.php:313 | the capture returned is a match at some position at or after the start |
| Playdede.UrlAssignmentAt | backend/app/Services/PlaydedeService.php:313 | a capture of `([^"]+)` is non-empty and has no double quote |
| Playdede.SpanishPlayers | backend/app/Services/PlaydedeService.php:258 | the XPath keeps exactly the player divs whose class contains `playerItem` and whose language is `esp` |
| Playdede.PlayerSources | backend/app/Services/PlaydedeService.php:260-275 | at most one source per player, and each source is truthy |
| Playdede.PlaydedeService.GetPlayerItems | backend/app/Services/PlaydedeService.php:230-282 | the player loop yields the sources of the Spanish players, or no items |
| Playdede.AsShowSources | backend/app/Services/PlaydedeService.php:88-92 | an empty player list is a failure, otherwise the sources themselves |
| Playdede.SearchTerm | backend/app/Services/PlaydedeService.php:78 | each literal space becomes `_`, and nothing else changes |
| Playdede.ShowSources | backend/app/Services/PlaydedeService.php:70-120 | getShowSources: every error it answers is "Show not found" or "No sources found"; its branches are stated by Playdede.ShowSourcesFastPath and Playdede.ShowSourcesOutcomes |
| Playdede.EpisodeSources | backend/app/Services/PlaydedeService.php:125-153 | getEpisodeSources: the nested sources of the first episode page that has players, otherwise the "No sources found" error and nothing else |
| Playdede.ShowSourcesFastPath | backend/app/Services/PlaydedeService.php:88-92 | exactly one first-search result gives that URL's player items, with no second search and no episode branch |
| Playdede.ShowSourcesOutcomes | backend/app/Services/PlaydedeService.php:95-113 | without exactly one first result: an empty second search is "Show not found" and nothing else is; otherwise a series or anime with a season and an episode gets the episode-template outcome, and any other request gets the player items of the second search's first result |
| Playdede.EpisodeTemplateOrder | backend/app/Services/PlaydedeService.php:125-153 | the `_tmdbId` episode template is tried only when the plain one yields no items |
| Playdede.EmbedRequestUrl | backend/app/Services/PlaydedeService.php:265-300 | the embed URL of a player id is requested unchanged |
| Playdede.SearchRequestUrl | backend/app/Services/PlaydedeService.php:162-167 | the search URL is requested as the base, `/search?` and the re-encoded `s=` query |
| Playdede.PlaydedeService.GetEpisodeSources | backend/app/Services/PlaydedeService.php:125-153 | the method computes the episode decision |
| Playdede.PlaydedeService.GetShowSources | backend/app/Services/PlaydedeService.php:70-120 | the method computes the whole decision procedure |
| DomScan.FirstM3u8Src | backend/puppeteer-service/server.js:102-123 | the `src` at some index contains `.m3u8` and no earlier `src` does; none when no `src` contains it |
| DomScan.Bare | backend/puppeteer-service/server.js:133-141 | a script match's capture has no quote and holds `.m3u8`, ignoring case, after its first character |
| DomScan.BareIsLeftmost | backend/puppeteer-service/server.js:133-141 | the capture is the match at the leftmost position where one starts, as `String.prototype.match` returns it |
| DomScan.BareNoneIff | backend/puppeteer-service/server.js:133-141 | there is no capture exactly when no position starts a match |
| DomScan.KeyedImpliesBare | backend/puppeteer-service/server.js:132-138 | whenever a keyed pattern (`file:`, `source:`, `src:`, `url:`) matches, the bare quoted pattern matches too |
| DomScan.ScriptHitIsBare | backend/puppeteer-service/server.js:126-147 | the pattern list always answers with the bare pattern's capture |
| DomScan.ScriptHitsAreBare | backend/puppeteer-service/server.js:126-147 | the script hit is the bare capture of a script before which no script has one, and there is none exactly when no script has one |
| DomScan.JwPlayerFile | backend/puppeteer-service/server.js:150-167 | the JWPlayer file is used only when it contains `.m3u8` |
| DomScan.Scan | backend/puppeteer-service/server.js:98-180 | the page scan clicks the play button exactly when no m3u8 URL was found on the page |
| DomScan.ScanFindsM3u8 | backend/puppeteer-service/server.js:98-180 | every URL the scan returns contains `.m3u8`, exactly on the attribute and JWPlayer paths and ignoring case in scripts |
| DomScan.ScanPriority | backend/puppeteer-service/server.js:101-167 | a `<video>` hit wins; without one a `<source>` hit; without both a script hit; otherwise the JWPlayer file |
| DomScan.ClickOnlyWhenNotFound | backend/puppeteer-service/server.js:170-179 | the play buttons are clicked exactly when no source was found |
| DomScan.ScanDom | backend/puppeteer-service/server.js:98-180 | the loops with early returns compute exactly `Scan`, whose priority ScanPriority states |
| M3u8Service.LaunchModeFor | backend/puppeteer-service/server.js:16-69 | an `hqq.ac` URL runs headful with `networkidle2`; any other runs headless `"new"` with `domcontentloaded` |
| M3u8Service.RedirectTracker.constructor | backend/puppeteer-service/server.js:39 | tracking starts at the player URL |
| M3u8Service.RedirectTracker.OnEvent | backend/puppeteer-service/server.js:39-61 | a main-frame navigation or a load moves the tracked URL to a URL other than the original and the current one |
| M3u8Service.FinalUrlIsLastMove | backend/puppeteer-service/server.js:39-61 | the tracked URL is the last looked-at event URL that differs from the original, or the original |
| M3u8Service.SubframeEventsIgnored | backend/puppeteer-service/server.js:42-43 | sub-frame navigations never move the tracked URL |
| M3u8Service.TrackRedirects | backend/puppeteer-service/server.js:39-61 | the listeners fed in order end at that URL |
| M3u8Service.PlayerUrlAfter | backend/puppeteer-service/server.js:75-90 | the player URL changes only for `hqq.ac` after a successful navigation, and only to the tracked URL |
| M3u8Service.NavigationErrorStillScans | backend/puppeteer-service/server.js:91-93 | a navigation error is swallowed: the URL is the same as without it, and after a launch, an opened page and a snapshot it is the scan's URL |
| M3u8Service.ExtractedUrlIsM3u8 | backend/puppeteer-service/server.js:98-191 | a returned URL needs a launch, an opened page and a snapshot, equals that snapshot's scan URL and contains `.m3u8` in some case |
| M3u8Service.ExtractM3u8 | backend/puppeteer-service/server.js:9-205 | getM3U8Url: a launch is reported iff the browser launched; with a launch, an opened page and a successful `evaluate` the URL is the scan's; otherwise it is null |
| M3u8Service.GetM3u8Url | backend/puppeteer-service/server.js:9-205 | the extraction with its listeners fed in order is `ExtractM3u8` |
| M3u8Service.HandleExtract | backend/puppeteer-service/server.js:213-241 | the endpoint always answers 200; an unparsable body gives "Internal server error"; a falsy player URL gives a null URL without a browser; a truthy player URL is answered with `getM3U8Url`'s result and launches the browser exactly when the extraction does |
| Tmdb.FormatResult | backend/app/Services/TMDBService.php:356-411 | an item is kept exactly when its effective type is movie or tv and its id, title and image are truthy; the entry's fields are then taken from it |
| Tmdb.FormattedResults | backend/app/Services/TMDBService.php:356-421 | at most one entry per item, each a typed listing entry |
| Tmdb.FormattedResultsConcat | backend/app/Services/TMDBService.php:360-418 | formatting is item by item, so input order is kept |
| Tmdb.OtherTypeDropsAll | backend/app/Services/TMDBService.php:363-368 | an explicit type other than movie or tv drops every item |
| Tmdb.FormatSearchResults | backend/app/Services/TMDBService.php:356-421 | the loop with `continue` computes the accepted entries |
| Tmdb.FirstCertification | backend/app/Services/TMDBService.php:429-446 | the first truthy certification of a country's releases, if any |
| Tmdb.UsCertification | backend/app/Services/TMDBService.php:429-446 | the first truthy certification of the first US entry that has one |
| Tmdb.AgeRating | backend/app/Services/TMDBService.php:429-446 | extractAgeRating: "NR", or the first truthy certification of a US entry |
| Tmdb.ExtractAgeRating | backend/app/Services/TMDBService.php:429-446 | the nested loops return that certification, else "NR" |
| Tmdb.TvContentRating | backend/app/Services/TMDBService.php:454-467 | the first US entry's rating, or "NR" when it has none or there is no US entry |
| Tmdb.GenreIdFor | backend/app/Services/TMDBService.php:105-118 | the id of the first genre whose name matches ignoring case; none exactly when no name matches |
| Tmdb.FindGenreId | backend/app/Services/TMDBService.php:105-118 | the loop with its `break` finds that id |
| Tmdb.UnknownGenreMakesNoRequest | backend/app/Services/TMDBService.php:101-139 | a genre that matches nothing lists nothing, whatever discover would answer |
| Tmdb.AllTypeListings | backend/app/Services/TMDBService.php:77-99 | type "all" lists the genre's movies, then its series; for the popular genre it lists nothing |
| Tmdb.GetShowsByGenreType | backend/app/Services/TMDBService.php:101-139 | the method computes the genre listing |
| Tmdb.GetShowsByGenre | backend/app/Services/TMDBService.php:77-99 | the method computes the dispatch |
| Tmdb.IsNumeric | backend/app/Services/TMDBService.php:622-627 | is_numeric of a genre: optional white space, an optional sign, digits with an optional fraction and exponent; stated by Tmdb.DigitsAreNumeric, Tmdb.PaddingIgnored, Tmdb.ExponentIsNumeric and Tmdb.LetterIsNotNumeric |
| Tmdb.DigitsAreNumeric | backend/app/Services/TMDBService.php:622-627 | a non-empty run of digits is numeric |
| Tmdb.PaddingIgnored | backend/app/Services/TMDBService.php:622-627 | white space before and after a string does not change whether `is_numeric` accepts it |
| Tmdb.ExponentIsNumeric | backend/app/Services/TMDBService.php:622-627 | digits, `e` or `E`, and digits form a numeric string |
| Tmdb.LetterIsNotNumeric | backend/app/Services/TMDBService.php:622-627 | a string starting with a letter, as a genre name does, is not numeric |
| Tmdb.PaddedExamples | backend/app/Services/TMDBService.php:622-627 | ` 28` and `28 ` are numeric |
| Tmdb.ExponentExamples | backend/app/Services/TMDBService.php:622-627 | `1e3` and `1E3` are numeric |
| Tmdb.NamesToIds | backend/app/Services/TMDBService.php:634-643 | unmatched genre names are dropped, and every name gives an id when all match |
| Tmdb.KeywordIds | backend/app/Services/TMDBService.php:654-672 | at most one id per keyword |
| Tmdb.DiscoverParams | backend/app/Services/TMDBService.php:602-671 | the discover query always opens with the four fixed parameters: language `es-ES`, the page, `popularity.desc` and no adult content; the optional ones are stated by the three lemmas below |
| Tmdb.DiscoverParamsPage | backend/app/Services/TMDBService.php:602-607 | the discover query starts with language, page, sort order and adult flag, and the page is the one requested |
| Tmdb.DiscoverParamsYears | backend/app/Services/TMDBService.php:610-615 | the date bounds `year-01-01` and `year-12-31` are sent exactly when the years are truthy |
| Tmdb.DiscoverParamsGenresAndKeywords | backend/app/Services/TMDBService.php:645-672 | `with_genres` and `with_keywords` are sent, comma-joined, exactly when there are ids |
| Tmdb.FailedDiscoverIsEmptyPage | backend/app/Services/TMDBService.php:687-701 | a failed discover request gives page 1 of 1 with no results |
| Tmdb.NumericGenresPassThrough | backend/app/Services/TMDBService.php:618-627 | when any genre is numeric, the genres are sent unchanged |
| Tmdb.GenreNamesResolveInOrder | backend/app/Services/TMDBService.php:634-643 | names are resolved one by one in order, and each matched name adds its id |
| Tmdb.ContainsNumericIds | backend/app/Services/TMDBService.php:622-627 | the scan with its `break` tells whether any genre is numeric |
| Tmdb.MapGenreNames | backend/app/Services/TMDBService.php:634-643 | the lookup loops compute the resolved names |
| Tmdb.ResolveGenreIds | backend/app/Services/TMDBService.php:618-651 | the method computes the genre filter values |
| Tmdb.CollectKeywordIds | backend/app/Services/TMDBService.php:654-672 | the keyword loop keeps the first id of each successful search |
| Tmdb.GetAllShows | backend/app/Services/TMDBService.php:599-702 | the method computes the discover page or the empty page (`getAllMovies`; `getAllSeries` at lines 758-861 has the same shape) |
| Favorites.WithFavorite | backend/app/Http/Controllers/ShowController.php:132-157 | after an add the pair is present; an existing pair leaves the list unchanged, otherwise the formatted show is appended |
| Favorites.AddTwiceIsAddOnce | backend/app/Http/Controllers/ShowController.php:135-157 | adding the same show twice is adding it once |
| Favorites.OtherTypeIsNoDuplicate | backend/app/Http/Controllers/ShowController.php:135-145 | the same id with another type is not a duplicate |
| Favorites.RemainingKeepsSurvivors | backend/app/Http/Controllers/ShowController.php:174-183 | removal keeps exactly the surviving entries, each taken from the list |
| Favorites.RemainingConcat | backend/app/Http/Controllers/ShowController.php:174-183 | removal is entry by entry, so survivors keep their order |
| Favorites.RemoveAbsentIsIdentity | backend/app/Http/Controllers/ShowController.php:174-183 | removing what is not there changes nothing |
| Favorites.RemoveUndoesAdd | backend/app/Http/Controllers/ShowController.php:117-189 | a typed removal right after adding that pair restores the list |
| Favorites.User.Favorites | backend/app/Http/Controllers/ShowController.php:198-201 | null favourites read as `[]` |
| Favorites.User.AddToFavorites | backend/app/Http/Controllers/ShowController.php:117-158 | an invalid request is rejected; a present pair answers "already in favorites" with no write; otherwise the show is appended |
| Favorites.User.RemoveFromFavorites | backend/app/Http/Controllers/ShowController.php:166-189 | the survivors are stored and the success reply is given |
| ShowLists.FindOwned | backend/app/Http/Controllers/ShowListController.php:58-64 | the list with this id owned by this user, and none exactly when there is no such list |
| ShowLists.WithShow | backend/app/Http/Controllers/ShowListController.php:66-89 | a list already holding the id, whatever its type, is unchanged; otherwise the formatted show is appended |
| ShowLists.WithoutShow | backend/app/Http/Controllers/ShowListController.php:121-126 | every show with the id is removed and all others are kept |
| ShowLists.WithoutShowConcat | backend/app/Http/Controllers/ShowListController.php:121-126 | removal keeps the other shows in their order |
| ShowLists.RemoveUndoesAdd | backend/app/Http/Controllers/ShowListController.php:66-126 | removing a show just added restores the list |
| ShowLists.ListsOf | backend/app/Http/Controllers/ShowListController.php:92-96 | exactly the caller's lists are returned |
| ShowLists.RemoveAtDropsId | backend/app/Http/Controllers/ShowListController.php:131-144 | with unique list ids, deleting a list removes its id from the store and leaves the remaining ids unique |
| ShowLists.DeleteKeepsOtherUsers | backend/app/Http/Controllers/ShowListController.php:131-144 | deleting one's own list never changes another user's lists |
| ShowLists.ShowListStore.CreateList | backend/app/Http/Controllers/ShowListController.php:20-42 | an invalid request is rejected; otherwise a new empty list with a fresh id is stored and answered with 201 |
| ShowLists.ShowListStore.AddShowToList | backend/app/Http/Controllers/ShowListController.php:44-90 | an invalid request or a list that is not the caller's is rejected with nothing written; a show whose id is already in the list gives 200 with nothing written; otherwise the formatted show is appended and the 201 answer carries it, the new last show of the caller's list |
| ShowLists.ShowListStore.RemoveShowFromList | backend/app/Http/Controllers/ShowListController.php:111-129 | a list that is not the caller's gives 404; otherwise that show is removed |
| ShowLists.ShowListStore.DeleteList | backend/app/Http/Controllers/ShowListController.php:131-144 | a list that is not the caller's gives 404; otherwise exactly that list is deleted, and no list with that id remains |
| ShowLists.ShowListStore.UserLists | backend/app/Http/Controllers/ShowListController.php:92-96 | every list returned belongs to the caller |
| ShowLists.ShowListStore.GetList | backend/app/Http/Controllers/ShowListController.php:98-109 | the caller's list with that id, or none when there is no such list; since ids are unique, the answer is the only list with that id |
| MoviesStore.MoviesStore.IsCacheValid | frontend/src/stores/movies.js:94-98 | the store's cache is valid exactly when it was updated less than the expiration ago |
| MoviesStore.HitChangesNothing | frontend/src/stores/movies.js:253-278 | a valid cached section is returned with no change and no request |
| MoviesStore.MissOutcomes | frontend/src/stores/movies.js:253-310 | a miss ends not loading; a failure returns `[]` and sets the error; a success caches and returns the results |
| MoviesStore.Take | frontend/src/stores/movies.js:136-137 | `slice(0, n)` keeps the first n items |
| MoviesStore.WithType | frontend/src/stores/movies.js:136-137 | every item gets the type and nothing else changes |
| MoviesStore.Insert | frontend/src/stores/movies.js:143-144 | one insertion step of the sort adds exactly one item |
| MoviesStore.SortByPopularity | frontend/src/stores/movies.js:143-144 | the comparator sort keeps the length; order and permutation are stated by MoviesStore.SortByPopularitySorts |
| MoviesStore.SortByPopularitySorts | frontend/src/stores/movies.js:143-144 | the merge is sorted by popularity descending and is a permutation of its input |
| MoviesStore.InsertKeepsTies | frontend/src/stores/movies.js:143-144 | inserting an item puts it before every item of equal popularity and keeps their order |
| MoviesStore.SortIsStable | frontend/src/stores/movies.js:143-144 | the sort is stable: the items of any one popularity appear in the order they had in the input |
| MoviesStore.TopPopular | frontend/src/stores/movies.js:136-144 | popular content never has more than six items |
| MoviesStore.TopPopularShape | frontend/src/stores/movies.js:136-144 | popular content is at most three movies plus at most three series, every item typed, sorted by popularity |
| MoviesStore.TopPopularKeepsTies | frontend/src/stores/movies.js:136-144 | among equally popular items, the chosen movies keep their order and come before the chosen series |
| MoviesStore.PopularFetched | frontend/src/stores/movies.js:118-157 | fetchPopularContent as a state change: served from a valid cache, or the failure or the new top content; stated by MoviesStore.PopularRefreshValidates |
| MoviesStore.PopularRefreshValidates | frontend/src/stores/movies.js:147-156 | a successful refresh makes the cache valid |
| MoviesStore.Unused | frontend/src/stores/movies.js:327-333 | the available items are exactly those whose key (with `tv-` for TV genres) is not yet used |
| MoviesStore.FirstUnused | frontend/src/stores/movies.js:327-333 | the first available item, and none exactly when every key is used |
| MoviesStore.LoadedAdditional | frontend/src/stores/movies.js:319-399 | loadAdditionalContent as a state change; stated by MoviesStore.BusyOrDoneDoesNothing, MoviesStore.ExhaustedMarksAllLoaded and MoviesStore.LoadAddsAtMostOnePerCategory |
| MoviesStore.BusyOrDoneDoesNothing | frontend/src/stores/movies.js:320 | while loading, or once everything is loaded, nothing happens |
| MoviesStore.ExhaustedMarksAllLoaded | frontend/src/stores/movies.js:335-337 | with nothing left in any category, the store marks all content loaded |
| MoviesStore.LoadAddsAtMostOnePerCategory | frontend/src/stores/movies.js:319-399 | a load adds at most one movie genre, one TV genre and one keyword, keeps every existing entry, and ends not loading with the new-section markers null |
| MoviesStore.ClearedNeverHits | frontend/src/stores/movies.js:408-413 | after clearing, no section is cached and the popular cache is invalid |
| MoviesStore.MoviesStore.constructor | frontend/src/stores/movies.js:9-87 | the store starts with no sections, no popular content and nothing loading |
| MoviesStore.MoviesStore.Fetch | frontend/src/stores/movies.js:253-310 | the method computes the section fetch |
| MoviesStore.MoviesStore.FetchPopularContent | frontend/src/stores/movies.js:118-157 | the method computes the popular refresh |
| MoviesStore.MoviesStore.LoadAdditionalContent | frontend/src/stores/movies.js:319-399 | the method computes the load-more step |
| MoviesStore.MoviesStore.ClearCache | frontend/src/stores/movies.js:408-413 | both maps and the popular list are emptied and the update time nulled |
| UseMovies.FreshEntryIsServed | frontend/src/composables/useMovies.js:65-69 | an entry younger than an hour is returned, with no change and no request |
| UseMovies.MissOutcomes | frontend/src/composables/useMovies.js:71-91 | a miss ends not loading; a failure returns `[]`, sets the error and caches nothing; a success caches the data with its time |
| UseMovies.CachedWithinTheHour | frontend/src/composables/useMovies.js:63-92 | within the hour after a successful fetch, fetching again is served from the cache |
| UseMovies.FailureIsRetried | frontend/src/composables/useMovies.js:85-91 | a failure is not cached, so the next fetch asks again |
| UseMovies.RandomItems | frontend/src/composables/useMovies.js:136-139 | given a shuffle of the list, the pick has `min(count, length)` items, all from the list |
| UseMovies.RandomItemsDistinct | frontend/src/composables/useMovies.js:136-139 | a pick from a list without repeats has no repeats |
| UseMovies.HomeRequests | frontend/src/composables/useMovies.js:159-175 | the home page asks for each movie genre, each TV genre as `tv-`+g and each keyword as `keyword-`+k, in that order |
| UseMovies.HomePage | frontend/src/composables/useMovies.js:145-188 | fetchMoviesForHomePage as a state change; stated by UseMovies.HomePageAnswers and UseMovies.HomePageAnswersEachPick |
| UseMovies.HomePageResult | frontend/src/composables/useMovies.js:145-188 | the home page ends not loading with `movies` empty; the error is set exactly when some missed request failed; the content has a slot exactly for each request |
| UseMovies.HomePageAnswers | frontend/src/composables/useMovies.js:159-178 | each request's slot holds that request's answer |
| UseMovies.PicksAreUnambiguous | frontend/src/composables/useMovies.js:152-154 | the picks are 5 movie genres, 3 TV genres and 4 keywords, without repeats |
| UseMovies.HomePageAnswersEachPick | frontend/src/composables/useMovies.js:145-188 | the twelve picked requests each get their own slot holding their answer |
| HomeLists.ListsAreUnambiguous | frontend/src/composables/useMovies.js:31-56 | the three built-in lists have no repeats, and no movie genre carries a `tv-` or `keyword-` prefix |
| UseMovies.Movies.constructor | frontend/src/composables/useMovies.js:10-22 | no movies, not loading, no error, empty genre and keyword caches |
| UseMovies.Movies.FetchMoviesByGenre | frontend/src/composables/useMovies.js:63-92 | the method computes the genre fetch |
| UseMovies.Movies.FetchMoviesByKeyword | frontend/src/composables/useMovies.js:99-128 | the method computes the keyword fetch |
| UseMovies.Movies.FetchMoviesForHomePage | frontend/src/composables/useMovies.js:145-188 | the method computes the home page over the three random picks |
| Collections.WithUpdate | frontend/src/composables/useShowsCollection.js:283-293 | a provided filter field replaces the old one, and the others are kept |
| Collections.UpdateIdempotent | frontend/src/composables/useShowsCollection.js:283-293 | applying an update twice is applying it once |
| Collections.EntryFrom | frontend/src/composables/useShowsCollection.js:105-115 | a cached list keeps `results \|\| []`, `total_pages \|\| 0`, `total_results \|\| 0` and the present time |
| Collections.FreshEntry | frontend/src/composables/useShowsCollection.js:70-77 | an entry is usable exactly when it exists and is younger than thirty minutes |
| Collections.CacheKeyInjective | frontend/src/composables/useShowsCollection.js:57-60 | keys of types without `_` coincide only for the same type, page and filters text |
| Collections.DefaultFilters | frontend/src/composables/useShowsCollection.js:23-27 | the initial filters: the years 1900 to the current year, no genres, no keywords |
| Frontend.OrNumber | frontend/src/composables/useShowsCollection.js:106-107 | `x \|\| fallback` on a number: the value when it is present and non-zero, else the fallback |
| ShowsCollection.Collection.constructor | frontend/src/composables/useShowsCollection.js:11-39 | the composable starts on page 1 with empty listings, default filters and empty caches |
| ShowsCollection.RequestParamsContents | frontend/src/composables/useShowsCollection.js:84-101 | the request carries the page and 18 per page; the year bounds exactly for a two-ended range; genres and keywords, comma-joined, exactly when given |
| ShowsCollection.Collection.BuildParams | frontend/src/composables/useShowsCollection.js:84-101 | the parameters added one by one are those parameters |
| ShowsCollection.FetchedList | frontend/src/composables/useShowsCollection.js:66-123 | the list fetch as a state change; stated by ShowsCollection.ListHitRestores, ShowsCollection.ListMissOutcomes and ShowsCollection.ListRefetchIsCached |
| ShowsCollection.ListHitRestores | frontend/src/composables/useShowsCollection.js:70-77 | a fresh entry restores the listing and totals, with no request and nothing else changed |
| ShowsCollection.ListMissOutcomes | frontend/src/composables/useShowsCollection.js:79-122 | a failure sets only the error; a success shows the response with its defaults and caches it; loading ends false |
| ShowsCollection.ListRefetchIsCached | frontend/src/composables/useShowsCollection.js:66-123 | within thirty minutes of a success, the same fetch changes nothing |
| ShowsCollection.FetchedListKeepsPageAndFilters | frontend/src/composables/useShowsCollection.js:66-186 | a listing fetch never changes the page, the filters or the other caches |
| ShowsCollection.Collection.FetchList | frontend/src/composables/useShowsCollection.js:66-123 | the shared listing fetch computes the cached-or-requested listing |
| ShowsCollection.Collection.FetchAllMovies | frontend/src/composables/useShowsCollection.js:66-123 | the method computes the movie listing fetch |
| ShowsCollection.Collection.FetchAllSeries | frontend/src/composables/useShowsCollection.js:129-186 | the method computes the series listing fetch |
| ShowsCollection.PageUrlWithoutFilters | frontend/src/composables/useShowsCollection.js:204-209 | without filters the page URL is the endpoint and `page \|\| 1` |
| ShowsCollection.PageUrlCarriesFilters | frontend/src/composables/useShowsCollection.js:204-209 | each truthy route filter appears in the URL as `&name=value` |
| ShowsCollection.Collection.BuildPageUrl | frontend/src/composables/useShowsCollection.js:204-209 | the URL extended step by step is that URL |
| ShowsCollection.PageDataFrom | frontend/src/composables/useShowsCollection.js:213-218 | the page data takes `results \|\| []`, `page \|\| 1`, `total_pages \|\| 0` and `total_results \|\| 0` |
| ShowsCollection.FetchedPage | frontend/src/composables/useShowsCollection.js:193-231 | the page fetch as a state change and its answer; stated by ShowsCollection.PageLoaderTouchesOnlyItsCache and ShowsCollection.PageRefetchIsCached |
| ShowsCollection.PageLoaderTouchesOnlyItsCache | frontend/src/composables/useShowsCollection.js:193-231 | a page loader changes only its own cache, writes it only on success, and throws its error message on failure |
| ShowsCollection.PageRefetchIsCached | frontend/src/composables/useShowsCollection.js:197-224 | a page loaded successfully, whether on a miss or when its entry had expired, is served again, unchanged, for thirty minutes |
| ShowsCollection.Collection.FetchPage | frontend/src/composables/useShowsCollection.js:193-231 | the shared page loader computes the cached-or-requested page and its outcome |
| ShowsCollection.Collection.FetchAllMoviesPage | frontend/src/composables/useShowsCollection.js:193-231 | the method computes the movie page loader |
| ShowsCollection.Collection.FetchAllSeriesPage | frontend/src/composables/useShowsCollection.js:238-276 | the method computes the series page loader |
| ShowsCollection.UpdateChangesOnlyWhatIsGiven | frontend/src/composables/useShowsCollection.js:283-293 | an update changes only the provided fields, and resets the page when asked |
| ShowsCollection.ResetForgetsUpdates | frontend/src/composables/useShowsCollection.js:298-305 | a reset forgets every earlier update |
| ShowsCollection.GoToPageWithinRange | frontend/src/composables/useShowsCollection.js:311-315 | the page moves exactly to pages in `[1, totalPages]`; any other page does nothing |
| ShowsCollection.Collection.UpdateFilters | frontend/src/composables/useShowsCollection.js:283-293 | the method computes the filter update, with no request |
| ShowsCollection.Collection.ResetFilters | frontend/src/composables/useShowsCollection.js:298-305 | the method computes the reset to the defaults and page 1, with no request |
| ShowsCollection.Collection.GoToPage | frontend/src/composables/useShowsCollection.js:311-315 | the method computes the guarded page change, with no request |
| ShowsCollection.PageStaysPositive | frontend/src/composables/useShowsCollection.js:66-315 | every operation keeps the page at 1 or above |
| ContentCollection.DefaultContentFilters | frontend/src/composables/useContentCollection.js:22-27 | the default filters, with content source `popular` |
| ContentCollection.WithContentUpdate | frontend/src/composables/useContentCollection.js:121-124 | provided fields replace the old ones; the content source only when truthy |
| ContentCollection.PopularIgnoresFilters | frontend/src/composables/useContentCollection.js:67-70 | the popular source requests the weekly trending page, whatever the other filters |
| ContentCollection.CatalogUrlCarriesFilters | frontend/src/composables/useContentCollection.js:72-88 | the catalogue URL starts at the endpoint and page and carries both year bounds, the genres and the keywords whenever they are set |
| ContentCollection.Content.BuildUrl | frontend/src/composables/useContentCollection.js:65-88 | the URL built with `+=` is that URL |
| ContentCollection.Fetched | frontend/src/composables/useContentCollection.js:48-112 | fetchContent as a state change; stated by ContentCollection.HitIsServedFromCache, ContentCollection.MissOutcomes and ContentCollection.RefetchIsCached |
| ContentCollection.HitIsServedFromCache | frontend/src/composables/useContentCollection.js:49-59 | a fresh entry restores items and totals, not the page, with no request |
| ContentCollection.MissOutcomes | frontend/src/composables/useContentCollection.js:61-111 | a failure empties the items and sets the Spanish message; a success takes the response's data and its page (`\|\| 1`) and caches under the key computed before the request; loading ends false |
| ContentCollection.RefetchIsCached | frontend/src/composables/useContentCollection.js:49-103 | when the response stays on the requested page, the next fetch within thirty minutes changes nothing |
| ContentCollection.OtherPagesUntouched | frontend/src/composables/useContentCollection.js:98-103 | caching one page, under a key that spells out its page, never hides or replaces another page's entry |
| ContentCollection.ResetAsksForFirstTrendingPage | frontend/src/composables/useContentCollection.js:138-147 | a reset forgets every update and asks for the first trending page |
| ContentCollection.UpdateChangesOnlyWhatIsGiven | frontend/src/composables/useContentCollection.js:119-130 | an update changes only the fields it provides, and resets the page when asked |
| ContentCollection.GoToPageOnlyInRange | frontend/src/composables/useContentCollection.js:153-158 | outside `[1, totalPages]` nothing moves and nothing is fetched; inside, that page is fetched |
| ContentCollection.Content.constructor | frontend/src/composables/useContentCollection.js:13-30 | the composable keeps its content type and starts on page 1 with empty items, the popular source and an empty cache |
| ContentCollection.Content.FetchContent | frontend/src/composables/useContentCollection.js:48-112 | the method computes the fetch |
| ContentCollection.Content.UpdateFilters | frontend/src/composables/useContentCollection.js:119-133 | the update, then its fetch |
| ContentCollection.Content.ResetFilters | frontend/src/composables/useContentCollection.js:138-147 | the reset, then its fetch |
| ContentCollection.Content.GoToPage | frontend/src/composables/useContentCollection.js:153-158 | the guarded page change and its fetch |
| UseSearch.Searched | frontend/src/composables/useSearch.js:20-40 | searchContent as a state change; stated by UseSearch.BlankQueryMakesNoRequest and UseSearch.SearchOutcomes |
| UseSearch.BlankQueryMakesNoRequest | frontend/src/composables/useSearch.js:21-24 | an absent, empty or white-space query empties the results and nothing else, with no request |
| UseSearch.SearchOutcomes | frontend/src/composables/useSearch.js:26-39 | any other query is remembered and ends not loading; the error is set exactly when the request fails; results are `results \|\| []` on success and `[]` on failure |
| UseSearch.ClearIsIdempotent | frontend/src/composables/useSearch.js:45-49 | clearing twice is clearing once, and a blank search after clearing changes nothing |
| UseSearch.ClearForgetsSearch | frontend/src/composables/useSearch.js:20-49 | clearing after a search forgets it; only the loading flag keeps a trace |
| UseSearch.SpacesAreBlank | frontend/src/composables/useSearch.js:21 | a query made only of spaces counts as blank, whatever its length |
| UseSearch.Search.constructor | frontend/src/composables/useSearch.js:10-13 | no results, not loading, no error, an empty query |
| UseSearch.Search.SearchContent | frontend/src/composables/useSearch.js:20-40 | the method computes the search |
| UseSearch.Search.ClearSearch | frontend/src/composables/useSearch.js:45-49 | results, query and error are reset; loading is left as it is |
| AuthStore.Authenticated | frontend/src/stores/auth.js:54-95 | a login or register answer as a state change; stated by AuthStore.AcceptedSignsIn, AuthStore.RejectedKeepsSession and AuthStore.RejectionExplains |
| AuthStore.AcceptedSignsIn | frontend/src/stores/auth.js:54-62 | a success stores user and token in the state and in localStorage, clears the errors and returns true |
| AuthStore.RejectedKeepsSession | frontend/src/stores/auth.js:63-70 | a failure returns false and keeps user, token and storage; the errors are the response's, else its message under `general`, else the generic message |
| AuthStore.RejectionExplains | frontend/src/stores/auth.js:63-70 | a rejection always leaves some error to show, unless the response itself sends an empty errors object |
| AuthStore.LogoutSignsOut | frontend/src/stores/auth.js:100-104 | logout signs out whatever came before and drops every error |
| AuthStore.ClearErrorsKeepsSession | frontend/src/stores/auth.js:109-111 | clearErrors changes only the errors |
| AuthStore.Auth.constructor | frontend/src/stores/auth.js:8-26 | signed out, with no errors, over the given localStorage |
| AuthStore.Auth.Authenticate | frontend/src/stores/auth.js:54-95 | the shared body of login and register computes the outcome's new state and the returned boolean |
| AuthStore.Auth.Login | frontend/src/stores/auth.js:54-71 | the method computes login with its generic message |
| AuthStore.Auth.Register | frontend/src/stores/auth.js:78-95 | the method computes register with its generic message |
| AuthStore.Auth.Logout | frontend/src/stores/auth.js:100-104 | user and token are nulled and the errors emptied |
| AuthStore.Auth.ClearErrors | frontend/src/stores/auth.js:109-111 | only the errors are emptied |
| Guards.RequireAuth | frontend/src/router/guards.js:11-23 | the navigation proceeds exactly when the token is truthy; otherwise it redirects to `landing` |
| Guards.RequireNoAuth | frontend/src/router/guards.js:33-45 | the navigation proceeds exactly when the token is falsy; otherwise it redirects to `home` |
| Guards.ExactlyOneProceeds | frontend/src/router/guards.js:11-45 | for any token, exactly one of the two guards lets the navigation through |
| Guards.GuardsFollowTheStore | frontend/src/stores/auth.js:32 | `requireAuth` passes exactly the authenticated, and `requireNoAuth` exactly the others |
| Guards.GuardsAfterStoreActions | frontend/src/router/guards.js:11-45 | after logout, protected routes redirect to `landing` and sign-in pages open; a rejected login changes neither guard |
| Guards.GuardsAfterSignIn | frontend/src/router/guards.js:11-45 | after a sign-in with a non-empty token, protected routes open and sign-in pages redirect `home` |

## Left out

- All logging (`Log::`, `console.*`) is left out, and so are timings, timeouts and waits (`waitForTimeout`, `waitForNetworkIdle`, navigation timeouts). None of them decides a value.
- I/O and concurrency:
  - HTTP responses, DOM parsing, XPath and the headless browser are inputs.
  - `Promise.all` in the home page is modelled as the requests settling one after another in source order, each against the cache state from before the loading started.
  - A JavaScript cache write between two awaits of another call is not modelled.
- The composables' un-awaited `fetchContent()` calls are modelled as running to completion inside `updateFilters`, `resetFilters` and `goToPage`. `ContentCollection.Content.UpdateFilters` and its siblings therefore omit the window in which the request is still pending.
- `JSON.stringify`, `encodeURIComponent`, `urlencode` and `http_build_query` are parameters. Their escaping rules are not modelled. So `Collections.CacheKeyInjective` speaks of the filters text, not of the filters.
- `ShowList.FormatTitle` works on characters. PHP's `preg_replace` without `/u` works on UTF-8 bytes. The two agree on the listed accented letters and specials, but on other non-ASCII characters PHP would also strip stray bytes.
- `getShowLogo` and the TMDB requests themselves are inputs (`logo`, `Api`). So are `getTrending`, `getShowsByKeyword` and `getGenreList`, beyond the lookups modelled: they are thin request wrappers.
- The outer `catch` blocks of `getShowSources` and `getEpisodeSources`, and the per-item `try`/`catch` of `formatSearchResults`, are not modelled. Every callee already catches its own failures, so no modelled input reaches them.
- The controllers' Laravel validation, Eloquent persistence and authentication are not modelled. The model reduces them to an optional request (none: invalid) and to in-memory stores. A list whose stored `shows` is null is modelled as an empty list.
- `JsonResponseMiddleware` (`mb_convert_encoding`) and `AuthController` are not part of this model.
- The movies store's `fetchMoviesForHomePage` and `getPopularContent` are not part of this model. The movies store's `getRandomItems` is the same copy-shuffle-slice as the composable's and is modelled once, as `UseMovies.RandomItems`, with the shuffle as an input.
- The player URL update after the `hqq.ac` waits is modelled (`M3u8Service.PlayerUrlAfter`), but nothing after it reads the variable, so it never changes the result.
- `localStorage` is a map inside the auth state. The restoring of a session from it at start-up, and the axios interceptors, are not part of this model.
- `AuthStore.User` and the error objects are modelled by the keys and messages the store passes on. Other JSON values are not modelled.
- Url.RequestUrl: `parse_url` is modelled for URLs whose first `:` ends a valid scheme and opens `://`. A URL of another form is read as a bare path and query, so it has no host, and with a query it gives `None`. That matches PHP unless one of `parse_url`'s other paths rejects it (the `host:port` form or a leading `//` with a bad port or an empty host); PHP then requests the URL as given. The replacement of control characters by `_` in every component is not modelled.
- ShowsCollection.FetchedList, ShowsCollection.FetchedPage, ContentCollection.Fetched, UseMovies.Fetched, UseMovies.HomePage, MoviesStore.PopularFetched and MoviesStore.LoadedSections: one clock reading `now` serves both the freshness test and the stamp written after the request. The source reads `Date.now()` again once the request completes (useShowsCollection.js:114, :177, :223 and :268; useContentCollection.js:102; useMovies.js:81 and :117; movies.js:147 and :391). Its entries are therefore stamped at completion, and they stay fresh one request latency longer than the model's. The refetch lemmas (ShowsCollection.ListRefetchIsCached, ShowsCollection.PageRefetchIsCached, ContentCollection.RefetchIsCached) count the expiration from the start of the request. The source counts it from the completion, so every refetch they prove cached is cached in the source too.
- MoviesStore.SortByPopularity and MoviesStore.TopPopular: popularity is an integer and is always present. TMDB sends a float, and a missing popularity would give `NaN` in the comparator; neither is modelled.
- AuthStore.Stored: a `null` token is not told apart from an absent one. `setItem` would store it as "null", and the model stores "undefined".

