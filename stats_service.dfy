/** The dashboard statistics request and the cross-entity free-text search. */
module StatsService {
  import opened Wrappers
  import opened UrlSearchParams
  import opened Api

  /** `getStats(token)`: a GET of `/stats` without query parameters, returning
      the whole response body. */
  function StatsCall(base: string, token: string): (c: Call)
    ensures c.request.verb == GET && c.request.query == [] && c.request.body == None
    ensures c.request.url == base + EndpointPath(Stats)
    ensures EndpointOf(base, c.request.url) == Some(Stats)
    ensures c.request.headers == BearerHeaders(token)
    ensures c.projection == Whole
  {
    EndpointOfUrl(base, Stats);
    Call(Request(GET, base + EndpointPath(Stats), [], BearerHeaders(token), None), Whole)
  }

  /** `dynamicSearch(token, searchTerm)`: a GET of `/dynamic-search` whose
      query is exactly `query=<searchTerm>`, set even for an empty term,
      returning the whole response body. */
  method DynamicSearchCall(base: string, token: string, searchTerm: string) returns (c: Call)
    ensures c.request.verb == GET && c.request.body == None
    ensures c.request.url == base + EndpointPath(DynamicSearch)
    ensures EndpointOf(base, c.request.url) == Some(DynamicSearch)
    ensures c.request.query == [("query", searchTerm)]
    ensures Get(c.request.query, "query") == Some(searchTerm)
    ensures c.request.headers == BearerHeaders(token)
    ensures c.projection == Whole
  {
    var params := new SearchParams();
    params.Set("query", searchTerm);
    EndpointOfUrl(base, DynamicSearch);
    c := Call(Request(GET, base + EndpointPath(DynamicSearch), params.entries, BearerHeaders(token), None), Whole);
  }
}
