/** The search state of useSearch.js: the results, loading flag and error slot, updated in
    place by search and clearSearch. The request goes through the session's bearer fetch. */
module Search {
  import opened JsValues
  import opened Decimal
  import opened Http
  import opened CredentialStore
  import opened Auth

  /** The search response body, opaque. */
  datatype SearchResults = SearchResults(json: string)

  /** What search returns: undefined for a blank query, null after a failure, or the results. */
  datatype SearchReturn = NotSearched | NoResults | Found(results: SearchResults)

  const DefaultSearchTypes: seq<string> := ["track", "album"]
  const DefaultSearchLimit: int := 10
  const SearchFailedPrefix: string := "Failed to search: "
  const UnknownErrorMessage: string := "Unknown error"

  /** A query that is null, empty or white space only (`!query || query.trim() === ''`):
      exactly when it is absent or all of its characters are white space. */
  function IsBlankQuery(query: Option<string>): (b: bool)
    ensures b <==> query.None? || AllSpace(query.value)
  {
    if query.None? then true
    else
      TrimEmptyIffAllSpace(query.value);
      Trim(query.value) == ""
  }

  /** The `type` query value: the types joined with commas. */
  function TypesParam(types: seq<string>): string {
    Join(types, ",")
  }

  /** The `type` value lists the requested types in order: splitting it at the commas gives
      them back whenever none of them contains a comma. */
  lemma TypesParamListsTypes(types: seq<string>)
    requires |types| >= 1
    requires forall i :: 0 <= i < |types| ==> ',' !in types[i]
    ensures Split(TypesParam(types), ',') == types
  {
    SplitJoin(types, ',');
  }

  /** The request a non-blank search sends (before percent-encoding of the query): it carries
      the query, the requested types in order, and a limit that reads back as the given one. */
  function SearchEndpoint(query: string, types: seq<string>, limit: int): (e: Endpoint)
    ensures e.SearchQuery? && e.q == query
    ensures ParseInt(e.limit) == Some(limit)
    ensures |types| >= 1 && (forall i :: 0 <= i < |types| ==> ',' !in types[i]) ==>
      Split(e.typeParam, ',') == types
  {
    ParseIntRoundTrip(limit);
    if |types| >= 1 && (forall i :: 0 <= i < |types| ==> ',' !in types[i]) then
      TypesParamListsTypes(types);
      SearchQuery(query, TypesParam(types), IntToString(limit))
    else
      SearchQuery(query, TypesParam(types), IntToString(limit))
  }

  /** The message stored in the error slot after a failed search. */
  function SearchErrorMessage(message: string): (m: string)
    ensures |m| > |SearchFailedPrefix| && m[..|SearchFailedPrefix|] == SearchFailedPrefix
    ensures message != "" ==> m[|SearchFailedPrefix|..] == message
    ensures message == "" ==> m[|SearchFailedPrefix|..] == UnknownErrorMessage
  {
    SearchFailedPrefix + OrElse(Some(message), Some(UnknownErrorMessage)).value
  }

  class SearchState {
    /** The session whose bearer fetch the searches use. */
    const auth: AuthSession

    var searchResults: Option<SearchResults>
    var isLoading: bool
    var error: Option<string>

    constructor (auth: AuthSession)
      ensures this.auth == auth
      ensures searchResults == None && !isLoading && error == None
    {
      this.auth := auth;
      searchResults, isLoading, error := None, false, None;
    }

    /** search(query, types, limit) with the network producing `response`. A blank query only
        clears the results. Otherwise the error slot is reset, the search request is sent
        through the bearer fetch, success stores and returns the results, and failure keeps
        the previous results and fills the error slot instead of propagating. */
    method Search(query: Option<string>, types: seq<string> := DefaultSearchTypes, limit: int := DefaultSearchLimit,
                  response: Response<SearchResults>)
      returns (r: SearchReturn)
      modifies this`searchResults, this`isLoading, this`error, auth`requests
      ensures IsBlankQuery(query) ==>
        r == NotSearched && searchResults == None
        && isLoading == old(isLoading) && error == old(error) && auth.requests == old(auth.requests)
      ensures !IsBlankQuery(query) ==>
        var outcome := FetchOutcome(auth.client, auth.store, response);
        auth.requests == old(auth.requests) + SentBy(auth.client, auth.store, SearchEndpoint(query.value, types, limit))
        && !isLoading
        && (outcome.Success? ==>
              r == Found(outcome.value) && searchResults == Some(outcome.value) && error == None)
        && (outcome.Failure? ==>
              r == NoResults && searchResults == old(searchResults)
              && error == Some(SearchErrorMessage(outcome.message)))
    {
      if query.None? || Trim(query.value) == "" {
        searchResults := None;
        return NotSearched;
      }
      isLoading := true;
      error := None;
      var typesParam := Join(types, ",");
      var outcome := auth.FetchWithAuth(SearchQuery(query.value, typesParam, IntToString(limit)), response);
      match outcome {
        case Success(results) =>
          searchResults := Some(results);
          r := Found(results);
        case Failure(message) =>
          error := Some(SearchFailedPrefix + OrElse(Some(message), Some(UnknownErrorMessage)).value);
          r := NoResults;
      }
      isLoading := false;
    }

    /** clearSearch: results and error nulled, the loading flag untouched. */
    method ClearSearch()
      modifies this`searchResults, this`error
      ensures searchResults == None && error == None
    {
      searchResults := None;
      error := None;
    }
  }

  /** search("") with results present: they are cleared and no request is sent; a failing
      search for a real query keeps the results and leaves a non-empty error message. */
  method BlankThenFailingSearch(state: SearchState, query: string, message: string)
    returns (first: SearchReturn, second: SearchReturn)
    requires !AllSpace(query)
    modifies state, state.auth`requests
    ensures first == NotSearched && second == NoResults
    ensures state.searchResults == None
    ensures state.error.Some? && state.error.value != "" && !state.isLoading
  {
    first := state.Search(Some(""), response := Threw(message));
    second := state.Search(Some(query), response := Threw(message));
  }
}
