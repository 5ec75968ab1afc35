/**
  What the two collection composables (useShowsCollection and
  useContentCollection) share: the year/genre/keyword filters with their
  defaults and partial updates, the page-list response with its `||`
  defaults, the time-stamped list cache entries with their thirty-minute
  freshness, and the cache key `type_page_filters`. `JSON.stringify` of the
  filters is an input string; the current year is a parameter.
 */
module Collections {
  import opened Wrappers
  import opened Text
  import opened Frontend

  const CacheExpiration := 30 * 60 * 1000
  const ItemsPerPage := 18

  /** The filter fields both composables keep. */
  datatype Filters = Filters(yearRange: seq<int>, genres: seq<string>, keywords: seq<string>)

  /** `{ yearRange: [1900, currentYear], genres: [], keywords: [] }`. */
  function DefaultFilters(currentYear: int): (r: Filters)
    ensures r.yearRange == [1900, currentYear] && r.genres == [] && r.keywords == []
  {
    Filters([1900, currentYear], [], [])
  }

  /** The fields an `updateFilters` call provides; an array is always truthy, so a provided
      field is taken even when empty. */
  datatype FilterUpdate = FilterUpdate(yearRange: Option<seq<int>>, genres: Option<seq<string>>, keywords: Option<seq<string>>)

  /** The filters after an update: provided fields replaced, the others kept. */
  function WithUpdate(f: Filters, u: FilterUpdate): (r: Filters)
    ensures r.yearRange == (if u.yearRange.Some? then u.yearRange.value else f.yearRange)
    ensures r.genres == (if u.genres.Some? then u.genres.value else f.genres)
    ensures r.keywords == (if u.keywords.Some? then u.keywords.value else f.keywords)
  {
    Filters(u.yearRange.GetOr(f.yearRange), u.genres.GetOr(f.genres), u.keywords.GetOr(f.keywords))
  }

  /** Applying the same update twice is applying it once. */
  lemma UpdateIdempotent(f: Filters, u: FilterUpdate)
    ensures WithUpdate(WithUpdate(f, u), u) == WithUpdate(f, u)
  {
  }

  /** An update that provides nothing keeps the filters. */
  lemma EmptyUpdateKeeps(f: Filters)
    ensures WithUpdate(f, FilterUpdate(None, None, None)) == f
  {
  }

  /** `response.data`, by the fields the composables read. */
  datatype PageResponse = PageResponse(results: Option<seq<Item>>, page: Option<int>, totalPages: Option<int>,
                                       totalResults: Option<int>)

  /** A cached list: `{ data, totalPages, totalResults, timestamp }`. */
  datatype ListEntry = ListEntry(data: seq<Item>, totalPages: int, totalResults: int, timestamp: int)

  /** The entry a successful response leaves: `results || []`, `total_pages || 0`,
      `total_results || 0`, stamped with the present time. */
  function EntryFrom(response: PageResponse, now: int): (r: ListEntry)
    ensures r.data == response.results.GetOr([])
    ensures r.totalPages == OrNumber(response.totalPages, 0) && r.totalResults == OrNumber(response.totalResults, 0)
    ensures r.timestamp == now
  {
    ListEntry(response.results.GetOr([]), OrNumber(response.totalPages, 0), OrNumber(response.totalResults, 0), now)
  }

  /** The entry a fetch may use: present and younger than thirty minutes. */
  function FreshEntry(cache: map<string, ListEntry>, key: string, now: int): (r: Option<ListEntry>)
    ensures r.Some? <==> key in cache && cache[key].timestamp > now - CacheExpiration
    ensures r.Some? ==> r.value == cache[key]
  {
    if key in cache && Fresh(cache[key].timestamp, now, CacheExpiration) then Some(cache[key]) else None
  }

  /** generateCacheKey: `${type}_${page}_${JSON.stringify(filters)}`. */
  function CacheKey(kind: string, page: int, filtersJson: string): string {
    kind + "_" + IntToString(page) + "_" + filtersJson
  }

  /** A decimal rendering never contains `_`. */
  lemma IntToStringHasNoUnderscore(i: int)
    ensures '_' !in IntToString(i)
  {
    var s := IntToString(i);
    if i >= 0 {
      assert forall k :: 0 <= k < |s| ==> s[k] != '_';
    } else {
      var digits := NatToString(-i);
      assert s == "-" + digits;
      assert forall k :: 0 <= k < |digits| ==> digits[k] != '_';
      assert forall k :: 1 <= k < |s| ==> s[k] == digits[k - 1];
    }
  }

  /** Different digits render as different characters. */
  lemma DigitCharInjective(a: int, b: int)
    requires 0 <= a < 10 && 0 <= b < 10
    requires DigitChar(a) == DigitChar(b)
    ensures a == b
  {
  }

  /** Decimal rendering is one-to-one. */
  lemma {:induction false} NatToStringInjective(a: nat, b: nat)
    requires NatToString(a) == NatToString(b)
    ensures a == b
  {
    if a < 10 && b < 10 {
      assert NatToString(a)[0] == DigitChar(a) && NatToString(b)[0] == DigitChar(b);
      DigitCharInjective(a, b);
    } else if a >= 10 && b >= 10 {
      var s := NatToString(a);
      assert s == NatToString(a / 10) + [DigitChar(a % 10)];
      assert s == NatToString(b / 10) + [DigitChar(b % 10)];
      assert s[..|s| - 1] == NatToString(a / 10) && s[..|s| - 1] == NatToString(b / 10);
      assert s[|s| - 1] == DigitChar(a % 10) && s[|s| - 1] == DigitChar(b % 10);
      NatToStringInjective(a / 10, b / 10);
      DigitCharInjective(a % 10, b % 10);
    }
  }

  /** A negative number and a natural number render differently. */
  lemma SignTellsApart(negative: int, other: int)
    requires negative < 0 <= other
    ensures IntToString(negative) != IntToString(other)
  {
    assert IntToString(negative)[0] == '-';
    assert '0' <= IntToString(other)[0] <= '9';
  }

  /** Integer rendering is one-to-one: the sign cannot be mistaken for a digit. */
  lemma IntToStringInjective(a: int, b: int)
    requires IntToString(a) == IntToString(b)
    ensures a == b
  {
    if a < 0 && b < 0 {
      assert IntToString(a)[1..] == NatToString(-a) && IntToString(b)[1..] == NatToString(-b);
      NatToStringInjective(-a, -b);
    } else if a >= 0 && b >= 0 {
      NatToStringInjective(a, b);
    } else if a < 0 {
      SignTellsApart(a, b);
    } else {
      SignTellsApart(b, a);
    }
  }

  /** A `_`-free prefix ends where the first `_` of the string is. */
  lemma PrefixBeforeUnderscore(a: string, b: string, c: string, d: string)
    requires '_' !in c
    requires a + "_" + b == c + "_" + d
    requires |a| <= |c|
    ensures |a| == |c|
  {
    var s := a + "_" + b;
    assert s[|a|] == '_';
    assert forall k :: 0 <= k < |c| ==> s[k] == c[k] && s[k] != '_';
  }

  /** Two strings joined at their first `_` split back into the same halves. */
  lemma SplitAtUnderscore(a: string, b: string, c: string, d: string)
    requires '_' !in a && '_' !in c
    requires a + "_" + b == c + "_" + d
    ensures a == c && b == d
  {
    if |a| <= |c| {
      PrefixBeforeUnderscore(a, b, c, d);
    } else {
      PrefixBeforeUnderscore(c, d, a, b);
    }
    var s := a + "_" + b;
    assert a == s[..|a|] == c;
    assert b == s[|a| + 1..] == d;
  }

  /** Keys whose type names have no `_` coincide only for the same type, the same page and the
      same filters text: a cached page is never served for another page or other filters. */
  lemma CacheKeyInjective(kind1: string, page1: int, json1: string, kind2: string, page2: int, json2: string)
    requires '_' !in kind1 && '_' !in kind2
    requires CacheKey(kind1, page1, json1) == CacheKey(kind2, page2, json2)
    ensures kind1 == kind2 && page1 == page2 && json1 == json2
  {
    var p1, p2 := IntToString(page1), IntToString(page2);
    assert CacheKey(kind1, page1, json1) == kind1 + "_" + (p1 + "_" + json1);
    assert CacheKey(kind2, page2, json2) == kind2 + "_" + (p2 + "_" + json2);
    SplitAtUnderscore(kind1, p1 + "_" + json1, kind2, p2 + "_" + json2);
    IntToStringHasNoUnderscore(page1);
    IntToStringHasNoUnderscore(page2);
    SplitAtUnderscore(p1, json1, p2, json2);
    IntToStringInjective(page1, page2);
  }

  /** goToPage's guard: a page inside `[1, totalPages]`. */
  predicate InRange(page: int, totalPages: int) {
    1 <= page <= totalPages
  }
}
