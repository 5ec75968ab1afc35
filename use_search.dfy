/**
  The useSearch composable: a search box's results, loading flag, error and
  last query. A blank query clears the results without a request; any other
  query is sent to the search endpoint.

  The network is `respond`, from the URL to the outcome (its value is
  `response.data.results`, possibly absent); `encodeURIComponent` is
  `encode`; the API base URL is a parameter.
 */
module UseSearch {
  import opened Wrappers
  import opened Text
  import opened Frontend

  const SearchError := "Error searching content. Please try again later."

  datatype SearchState = SearchState(results: seq<Item>, loading: bool, error: Option<string>, searchQuery: string)

  function InitialSearchState(): SearchState {
    SearchState([], false, None, "")
  }

  /** `!query || query.trim() === ''`: absent, empty or white space only. */
  predicate BlankQuery(query: Option<string>) {
    query.None? || query.value == "" || IsBlank(query.value)
  }

  /** The search request. */
  function SearchUrl(apiBase: string, query: string, encode: string -> string): string {
    apiBase + "/api/v1/shows/search?query=" + encode(query)
  }

  /** searchContent. */
  function Searched(st: SearchState, query: Option<string>, apiBase: string, encode: string -> string,
                    respond: string -> Outcome<Option<seq<Item>>>): SearchState {
    if BlankQuery(query) then st.(results := [])
    else
      match respond(SearchUrl(apiBase, query.value, encode))
      case Failed => st.(results := [], loading := false, error := Some(SearchError), searchQuery := query.value)
      case Answered(results) => st.(results := results.GetOr([]), loading := false, error := None, searchQuery := query.value)
  }

  /** clearSearch: results, query and error reset; loading left as it is. */
  function Cleared(st: SearchState): SearchState {
    st.(results := [], searchQuery := "", error := None)
  }

  /** A blank query empties the results and nothing else, without consulting the network. */
  lemma BlankQueryMakesNoRequest(st: SearchState, query: Option<string>, apiBase: string, encode: string -> string,
                                 respond: string -> Outcome<Option<seq<Item>>>,
                                 other: string -> Outcome<Option<seq<Item>>>)
    requires BlankQuery(query)
    ensures Searched(st, query, apiBase, encode, respond) == st.(results := [])
    ensures Searched(st, query, apiBase, encode, respond) == Searched(st, query, apiBase, encode, other)
  {
  }

  /** White space is blank, whatever its length. */
  lemma SpacesAreBlank(n: nat)
    ensures BlankQuery(Some(seq(n, _ => ' ')))
  {
    var s := seq(n, _ => ' ');
    assert forall i :: 0 <= i < |s| ==> s[i] == ' ' && IsJsSpace(s[i]);
  }

  /** Any other query is remembered and ends with loading false; the error is set exactly when
      the request fails; the results are the response's (or `[]`) on success and `[]` on failure. */
  lemma SearchOutcomes(st: SearchState, query: Option<string>, apiBase: string, encode: string -> string,
                       respond: string -> Outcome<Option<seq<Item>>>)
    requires !BlankQuery(query)
    ensures var r := Searched(st, query, apiBase, encode, respond);
      var outcome := respond(SearchUrl(apiBase, query.value, encode));
      && r.searchQuery == query.value && !r.loading
      && (r.error.Some? <==> outcome.Failed?)
      && (r.error.Some? ==> r.error.value == SearchError)
      && r.results == (if outcome.Answered? then outcome.value.GetOr([]) else [])
  {
  }

  /** Clearing twice is clearing once, and a blank search after clearing changes nothing. */
  lemma ClearIsIdempotent(st: SearchState, query: Option<string>, apiBase: string, encode: string -> string,
                          respond: string -> Outcome<Option<seq<Item>>>)
    ensures Cleared(Cleared(st)) == Cleared(st)
    ensures BlankQuery(query) ==> Searched(Cleared(st), query, apiBase, encode, respond) == Cleared(st)
  {
  }

  /** Clearing after a search forgets it: only the loading flag keeps a trace. */
  lemma ClearForgetsSearch(st: SearchState, query: Option<string>, apiBase: string, encode: string -> string,
                           respond: string -> Outcome<Option<seq<Item>>>)
    ensures Cleared(Searched(st, query, apiBase, encode, respond))
         == Cleared(st).(loading := if BlankQuery(query) then st.loading else false)
  {
  }

  class Search {
    var searchResults: seq<Item>
    var loading: bool
    var error: Option<string>
    var searchQuery: string

    function State(): SearchState
      reads this
    {
      SearchState(searchResults, loading, error, searchQuery)
    }

    constructor ()
      ensures State() == InitialSearchState()
    {
      searchResults := [];
      loading := false;
      error := None;
      searchQuery := "";
    }

    method SearchContent(query: Option<string>, apiBase: string, encode: string -> string,
                         respond: string -> Outcome<Option<seq<Item>>>)
      modifies this
      ensures State() == Searched(old(State()), query, apiBase, encode, respond)
    {
      if query.None? || query.value == "" || IsBlank(query.value) {
        searchResults := [];
        return;
      }
      loading := true;
      error := None;
      searchQuery := query.value;
      match respond(apiBase + "/api/v1/shows/search?query=" + encode(query.value)) {
        case Answered(results) =>
          searchResults := results.GetOr([]);
        case Failed =>
          error := Some(SearchError);
          searchResults := [];
      }
      loading := false;
    }

    method ClearSearch()
      modifies this
      ensures State() == Cleared(old(State()))
    {
      searchResults := [];
      searchQuery := "";
      error := None;
    }
  }
}
