/**
 * `SearchHandler`: the per-user state of the last station search (results,
 * current page, search term) and the search commands that fill it. The
 * Radio Browser API call is an input: its answer, or None when it throws.
 */
module SearchHandling {
  import opened Util
  import opened Stations

  /** `MAX_STATIONS`: the result limit asked of the API. */
  const MAX_STATIONS: int := 50
  /** The count `/top` uses when none is given. */
  const DEFAULT_TOP_COUNT: int := 20

  /** The search commands `getSearchCommands()` registers. */
  const SEARCH_COMMANDS: seq<string> := ["search", "top", "country", "genre", "random", "help"]

  /** `(count ?: 20).coerceIn(1, MAX_STATIONS)`. */
  function TopCount(count: Option<int>): (c: int)
    ensures 1 <= c <= MAX_STATIONS
    ensures count.None? ==> c == DEFAULT_TOP_COUNT
    ensures count.Some? && 1 <= count.value <= MAX_STATIONS ==> c == count.value
    ensures count.Some? && count.value < 1 ==> c == 1
    ensures count.Some? && count.value > MAX_STATIONS ==> c == MAX_STATIONS
  {
    Clamp(count.GetOr(DEFAULT_TOP_COUNT), 1, MAX_STATIONS)
  }

  /** What a search command asks of the API, and the term it stores for the user. */
  datatype Query =
    | ByName(term: string, limit: int)
    | Top(count: int)
    | ByCountry(country: string, limit: int)
    | ByTag(genre: string, limit: int)
    | RandomPick                  // top 500, one picked at random; nothing stored
    | Help
    | NoQuery                     // a name this handler does not know

  /** `handleSearchCommand`: the query a command name and its options make; missing strings are "". */
  function QueryFor(name: string, text: Option<string>, count: Option<int>): (q: Query)
    ensures name !in SEARCH_COMMANDS <==> q == NoQuery
    ensures name == "top" ==> q == Top(TopCount(count))
    ensures name == "search" ==> q == ByName(text.GetOr(""), MAX_STATIONS)
  {
    if name == "search" then ByName(text.GetOr(""), MAX_STATIONS)
    else if name == "top" then Top(TopCount(count))
    else if name == "country" then ByCountry(text.GetOr(""), MAX_STATIONS)
    else if name == "genre" then ByTag(text.GetOr(""), MAX_STATIONS)
    else if name == "random" then RandomPick
    else if name == "help" then Help
    else NoQuery
  }

  /** The term stored with a query's results: the search text, or "Top N Stations". */
  function StoredTerm(q: Query): string
    requires q.ByName? || q.Top? || q.ByCountry? || q.ByTag?
  {
    match q
    case ByName(t, _) => t
    case Top(c) => "Top " + IntToString(c) + " Stations"
    case ByCountry(c, _) => c
    case ByTag(g, _) => g
  }

  /** The first page a fresh search shows: `take(STATIONS_PER_PAGE)` of the results, page 1. */
  datatype ListView = ListView(stations: seq<RadioStation>, page: int, totalPages: int, hasStations: bool)

  /** The view a fresh search shows. */
  function FirstPageView(results: seq<RadioStation>): ListView
  {
    ListView(Take(results, PAGE_SIZE), 1, TotalPages(|results|), results != [])
  }

  /**
   * The list a fresh search shows is the page-1 slice the page buttons later
   * show, and it is not empty exactly when the search found something.
   */
  lemma FirstPageIsPageOne(results: seq<RadioStation>)
    ensures PageSlice(results, 1) == Some(FirstPageView(results).stations)
    ensures FirstPageView(results).stations == [] <==> results == []
    ensures results != [] ==> 1 <= FirstPageView(results).page <= FirstPageView(results).totalPages
  {
    assert PageStart(1) == 0;
    var ps := PageSlice(results, 1);
    assert ps.Some?;
    assert ps.value == Take(results, PAGE_SIZE);
    TotalPagesIsCeiling(|results|);
  }

  /**
   * `Random.nextInt(stations.size)` is left to the caller as `roll`; a pick
   * happens only for a non-empty list, at an index in range.
   */
  function RandomIndex(n: nat, roll: nat): (r: Option<nat>)
    ensures r.None? <==> n == 0
    ensures r.Some? ==> r.value < n
  {
    if n == 0 then None else Some(roll % n)
  }

  class SearchHandler {
    var userSearchResults: map<string, seq<RadioStation>>
    var userCurrentPage: map<string, int>
    var userSearchTerms: map<string, string>

    constructor ()
      ensures userSearchResults == map[] && userCurrentPage == map[] && userSearchTerms == map[]
    {
      userSearchResults := map[];
      userCurrentPage := map[];
      userSearchTerms := map[];
    }

    /** `getUserSearchResults`: empty for an unknown user. */
    function GetUserSearchResults(u: string): (r: seq<RadioStation>)
      reads this
      ensures u !in userSearchResults ==> r == []
      ensures u in userSearchResults ==> r == userSearchResults[u]
    {
      if u in userSearchResults then userSearchResults[u] else []
    }

    /** `getUserCurrentPage`: 1 for an unknown user. */
    function GetUserCurrentPage(u: string): (p: int)
      reads this
      ensures u !in userCurrentPage ==> p == 1
      ensures u in userCurrentPage ==> p == userCurrentPage[u]
    {
      if u in userCurrentPage then userCurrentPage[u] else 1
    }

    /** `getUserSearchTerm`: "" for an unknown user. */
    function GetUserSearchTerm(u: string): (t: string)
      reads this
      ensures u !in userSearchTerms ==> t == ""
      ensures u in userSearchTerms ==> t == userSearchTerms[u]
    {
      if u in userSearchTerms then userSearchTerms[u] else ""
    }

    /** `getPaginationData`: the three getters together. */
    function GetPaginationData(u: string): (d: (seq<RadioStation>, int, string))
      reads this
      ensures d == (GetUserSearchResults(u), GetUserCurrentPage(u), GetUserSearchTerm(u))
      ensures u !in userSearchResults && u !in userCurrentPage && u !in userSearchTerms ==> d == ([], 1, "")
    {
      (GetUserSearchResults(u), GetUserCurrentPage(u), GetUserSearchTerm(u))
    }

    /** `setUserCurrentPage`: stores the page as given, for that user only. */
    method SetUserCurrentPage(u: string, page: int)
      modifies this
      ensures userCurrentPage == old(userCurrentPage)[u := page]
      ensures userSearchResults == old(userSearchResults) && userSearchTerms == old(userSearchTerms)
    {
      userCurrentPage := userCurrentPage[u := page];
    }

    /**
     * The completion of a search/top/country/genre query: an API answer is
     * stored for the user with page 1 and the query's term, and its first page
     * is shown; an API failure stores nothing and shows the error.
     */
    method CompleteSearch(u: string, q: Query, answer: Option<seq<RadioStation>>) returns (view: Option<ListView>)
      requires q.ByName? || q.Top? || q.ByCountry? || q.ByTag?
      modifies this
      ensures answer.None? ==>
        && view.None? && userSearchResults == old(userSearchResults)
        && userCurrentPage == old(userCurrentPage) && userSearchTerms == old(userSearchTerms)
      ensures answer.Some? ==>
        && userSearchResults == old(userSearchResults)[u := answer.value]
        && userCurrentPage == old(userCurrentPage)[u := 1]
        && userSearchTerms == old(userSearchTerms)[u := StoredTerm(q)]
        && view == Some(FirstPageView(answer.value))
    {
      if answer.None? {
        return None;
      }
      var stations := answer.value;
      userSearchResults := userSearchResults[u := stations];
      userCurrentPage := userCurrentPage[u := 1];
      userSearchTerms := userSearchTerms[u := StoredTerm(q)];
      view := Some(FirstPageView(stations));
    }
  }

  /** After a search, the user's pagination data is the answer, page 1 and the term; nobody else's changes. */
  lemma SearchThenPagination(results: map<string, seq<RadioStation>>, pages: map<string, int>, terms: map<string, string>,
                             u: string, v: string, answer: seq<RadioStation>, term: string)
    ensures var r := results[u := answer]; var p := pages[u := 1]; var t := terms[u := term];
      && (u in r && r[u] == answer && u in p && p[u] == 1 && u in t && t[u] == term)
      && (v != u ==> (v in r <==> v in results) && (v in p <==> v in pages) && (v in t <==> v in terms))
  {
  }
}
