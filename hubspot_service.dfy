/** The CRM record service: per entity a paginated list request, a request
    for the user's field descriptors and an unpaginated export, and the two
    preference requests. Each function is modelled as the `Call` it makes:
    the request description handed to the HTTP client and the projection of
    the response body it returns. */
module HubspotService {
  import opened Wrappers
  import opened JsValues
  import opened UrlSearchParams
  import opened Api

  /** The page size a list function uses when its caller passes none. */
  const DefaultLimit: int := 10

  /** The query a list function sends, stated as the list it must come out as:
      `limit` always and first, `nextPage` when the cursor is truthy, `search`
      when the search string is non-empty. */
  function ListQuery(limit: int, nextPage: Option<string>, search: string): seq<Param> {
    [("limit", NumberToString(limit))]
    + (if Truthy(nextPage) then [("nextPage", nextPage.value)] else [])
    + (if search != "" then [("search", search)] else [])
  }

  /** The arguments a server recovers from a list query. */
  datatype ListArgs = ListArgs(limit: int, nextPage: Option<string>, search: string)

  /** The server's reading of a list query: `limit` parsed as an integer, the
      cursor if present, the search string or "" when absent. */
  function ReadListQuery(q: seq<Param>): Option<ListArgs> {
    match Get(q, "limit")
    case None => None
    case Some(text) =>
      match ParseInteger(text)
      case None => None
      case Some(n) => Some(ListArgs(n, Get(q, "nextPage"), Get(q, "search").GetOr("")))
  }

  /** The successive `set` calls on a fresh parameter list build `ListQuery`. */
  method BuildListQuery(limit: int, nextPage: Option<string>, search: string) returns (q: seq<Param>)
    ensures q == ListQuery(limit, nextPage, search)
  {
    var params := new SearchParams();
    params.Set("limit", NumberToString(limit));
    assert params.entries == [("limit", NumberToString(limit))];
    CountSingleton(("limit", NumberToString(limit)), "nextPage");
    CountSingleton(("limit", NumberToString(limit)), "search");
    if Truthy(nextPage) {
      SetParamAbsent(params.entries, "nextPage", nextPage.value);
      params.Set("nextPage", nextPage.value);
      CountSingleton(("nextPage", nextPage.value), "search");
      CountAppend([("limit", NumberToString(limit))], [("nextPage", nextPage.value)], "search");
    }
    if search != "" {
      SetParamAbsent(params.entries, "search", search);
      params.Set("search", search);
    }
    q := params.entries;
  }

  /** `getContacts`, `getCompanies`, `getDeals` and `getProducts`: a GET of
      `/<entity>` whose query holds `limit`, the cursor if truthy and the search
      string if non-empty, returning the whole response body. */
  method SearchableList(base: string, e: Entity, token: string,
                        limit: int := DefaultLimit, nextPage: Option<string> := None, search: string := "")
    returns (c: Call)
    requires e.TakesSearch()
    ensures c.request.verb == GET
    ensures c.request.url == base + EndpointPath(Records(e, List))
    ensures EndpointOf(base, c.request.url) == Some(Records(e, List))
    ensures c.request.query == ListQuery(limit, nextPage, search)
    ensures c.request.headers == BearerHeaders(token) && c.request.body == None
    ensures c.projection == Whole
  {
    var query := BuildListQuery(limit, nextPage, search);
    EndpointOfUrl(base, Records(e, List));
    c := Call(Request(GET, base + EndpointPath(Records(e, List)), query, BearerHeaders(token), None), Whole);
  }

  /** `getQuotes`, `getPayments`, `getInvoices` and `getSubscriptions`: the
      same without a search string. */
  method PagedList(base: string, e: Entity, token: string,
                   limit: int := DefaultLimit, nextPage: Option<string> := None)
    returns (c: Call)
    requires !e.TakesSearch()
    ensures c.request.verb == GET
    ensures c.request.url == base + EndpointPath(Records(e, List))
    ensures EndpointOf(base, c.request.url) == Some(Records(e, List))
    ensures c.request.query == ListQuery(limit, nextPage, "")
    ensures c.request.headers == BearerHeaders(token) && c.request.body == None
    ensures c.projection == Whole
  {
    var query := BuildListQuery(limit, nextPage, "");
    EndpointOfUrl(base, Records(e, List));
    c := Call(Request(GET, base + EndpointPath(Records(e, List)), query, BearerHeaders(token), None), Whole);
  }

  // ---------------------------------------------------------------------------
  // Properties of list queries.

  /** `limit` comes first; `nextPage` is present exactly when the cursor is
      truthy and carries it verbatim; `search` is present exactly when the
      search string is non-empty and comes last; no other key and no key twice. */
  lemma ListQueryShape(limit: int, nextPage: Option<string>, search: string)
    ensures var q := ListQuery(limit, nextPage, search);
      && q[0] == ("limit", NumberToString(limit))
      && (HasKey(q, "nextPage") <==> Truthy(nextPage))
      && (Truthy(nextPage) ==> q[1] == ("nextPage", nextPage.value))
      && (HasKey(q, "search") <==> search != "")
      && (search != "" ==> q[|q| - 1] == ("search", search))
      && (forall i :: 0 <= i < |q| ==> q[i].0 == "limit" || q[i].0 == "nextPage" || q[i].0 == "search")
      && DistinctKeys(q)
  {
    var q := ListQuery(limit, nextPage, search);
    var a := [("limit", NumberToString(limit))];
    var b: seq<Param> := if Truthy(nextPage) then [("nextPage", nextPage.value)] else [];
    var s: seq<Param> := if search != "" then [("search", search)] else [];
    assert q == a + b + s;
    forall k ensures Count(q, k) <= 1 && (k == "nextPage" ==> (Count(q, k) > 0 <==> Truthy(nextPage)))
      && (k == "search" ==> (Count(q, k) > 0 <==> search != ""))
    {
      CountAppend(a + b, s, k);
      CountAppend(a, b, k);
    }
  }

  /** The server reads back exactly the arguments that affect the request:
      the limit, the cursor when it is truthy, and the search string. */
  lemma ListQueryRoundTrip(limit: int, nextPage: Option<string>, search: string)
    ensures ReadListQuery(ListQuery(limit, nextPage, search))
      == Some(ListArgs(limit, if Truthy(nextPage) then nextPage else None, search))
  {
    var q := ListQuery(limit, nextPage, search);
    NumberToStringRoundTrip(limit);
    var a := [("limit", NumberToString(limit))];
    var b: seq<Param> := if Truthy(nextPage) then [("nextPage", nextPage.value)] else [];
    var s: seq<Param> := if search != "" then [("search", search)] else [];
    assert q == a + (b + s);
    ListQueryShape(limit, nextPage, search);
    GetAppend(a, b + s, "limit");
    assert Get(q, "limit") == Some(NumberToString(limit));
    GetAppend(a, b + s, "nextPage");
    GetAppend(b, s, "nextPage");
    CountSingleton(a[0], "nextPage");
    if !Truthy(nextPage) {
      assert b + s == s;
    }
    GetAppend(a, b + s, "search");
    GetAppend(b, s, "search");
    CountSingleton(a[0], "search");
    if Truthy(nextPage) {
      CountSingleton(b[0], "search");
    }
  }

  /** The four list functions without a search argument only ever send
      `limit` and `nextPage`. */
  lemma PagedQueryKeys(limit: int, nextPage: Option<string>)
    ensures var q := ListQuery(limit, nextPage, "");
      forall i :: 0 <= i < |q| ==> q[i].0 == "limit" || q[i].0 == "nextPage"
  {
  }

  /** With the default arguments only `limit=10` is sent. */
  lemma DefaultListQuery()
    ensures ListQuery(DefaultLimit, None, "") == [("limit", "10")]
  {
    assert NatToDecimal(1) == ['1'];
    assert NatToDecimal(10) == ['1', '0'];
  }

  // ---------------------------------------------------------------------------
  // Field descriptors and exports.

  /** `fetchContactFields` and its siblings: a GET of `/<entity>/user/fields`
      returning only `response.data.fields`. */
  function FieldsCall(base: string, e: Entity, token: string): (c: Call)
    ensures c.request.verb == GET && c.request.query == [] && c.request.body == None
    ensures c.request.url == base + EndpointPath(Records(e, Fields))
    ensures EndpointOf(base, c.request.url) == Some(Records(e, Fields))
    ensures c.request.headers == BearerHeaders(token)
    ensures c.projection == Field("fields")
  {
    EndpointOfUrl(base, Records(e, Fields));
    Call(Request(GET, base + EndpointPath(Records(e, Fields)), [], BearerHeaders(token), None), Field("fields"))
  }

  /** `exportAllContacts` and its siblings: a GET of `/<entity>/all` returning
      the response body unchanged. */
  function ExportCall(base: string, e: Entity, token: string): (c: Call)
    ensures c.request.verb == GET && c.request.query == [] && c.request.body == None
    ensures c.request.url == base + EndpointPath(Records(e, Export))
    ensures EndpointOf(base, c.request.url) == Some(Records(e, Export))
    ensures c.request.headers == BearerHeaders(token)
    ensures c.projection == Whole
  {
    EndpointOfUrl(base, Records(e, Export));
    Call(Request(GET, base + EndpointPath(Records(e, Export)), [], BearerHeaders(token), None), Whole)
  }

  /** A fields call yields the `fields` member of the body (`undefined` when a
      non-nullish body lacks it), throws a TypeError
      when the body is `null` or `undefined`, and rethrows a failed request. */
  lemma FieldsResult(base: string, e: Entity, token: string, reply: Reply)
    ensures var o := Run(FieldsCall(base, e, token), reply);
      && (reply.Rejected? ==> o == Thrown(reply.error))
      && (reply.Delivered? && reply.data.Obj? && "fields" in reply.data.props ==>
            o == Resolved(reply.data.props["fields"]))
      && (reply.Delivered? && !Nullish(reply.data) && !(reply.data.Obj? && "fields" in reply.data.props) ==>
            o == Resolved(Undefined))
      && (reply.Delivered? && Nullish(reply.data) ==> o == Thrown(TypeError("fields")))
  {
  }

  // ---------------------------------------------------------------------------
  // Preferences. Both functions take the token from the token store, never
  // from an argument: `storedToken` is what the store holds under
  // `hubspotToken`, and an empty store renders as the text "null".

  /** `fetchPreferences(category)`: a GET of `/preferences` with `category` as
      its only parameter, returning `response.data.preferences`. */
  function FetchPreferencesCall(base: string, category: string, storedToken: Option<string>): (c: Call)
    ensures c.request.verb == GET && c.request.body == None
    ensures c.request.url == base + EndpointPath(Preferences)
    ensures EndpointOf(base, c.request.url) == Some(Preferences)
    ensures c.request.query == [("category", category)]
    ensures c.request.headers == BearerHeaders(TemplateText(storedToken))
    ensures storedToken.None? ==> c.request.headers[0].1 == "Bearer null"
    ensures c.projection == Field("preferences")
  {
    EndpointOfUrl(base, Preferences);
    Call(Request(GET, base + EndpointPath(Preferences), [("category", category)],
                 BearerHeaders(TemplateText(storedToken)), None),
         Field("preferences"))
  }

  function StringArray(xs: seq<string>): (j: Json)
    ensures j.Arr? && |j.items| == |xs|
    ensures forall i :: 0 <= i < |xs| ==> j.items[i] == Str(xs[i])
  {
    Arr(seq(|xs|, i requires 0 <= i < |xs| => Str(xs[i])))
  }

  /** The server's reading of an array of strings. */
  function ReadStrings(items: seq<Json>): Option<seq<string>> {
    if items == [] then Some([])
    else if !items[0].Str? then None
    else match ReadStrings(items[1..])
      case None => None
      case Some(rest) => Some([items[0].s] + rest)
  }

  lemma {:induction false} ReadStringArray(xs: seq<string>)
    ensures ReadStrings(StringArray(xs).items) == Some(xs)
  {
    if xs != [] {
      var items := StringArray(xs).items;
      assert items[0] == Str(xs[0]);
      assert items[1..] == StringArray(xs[1..]).items;
      ReadStringArray(xs[1..]);
      assert xs == [xs[0]] + xs[1..];
    }
  }

  /** The body `{category, selectedFields}` of a save. */
  function PreferencesBody(category: string, selectedFields: seq<string>): Json {
    Obj(map["category" := Str(category), "selectedFields" := StringArray(selectedFields)])
  }

  /** `savePreferences(category, selectedFields)`: a POST to `/preferences`
      without query parameters, returning the whole response body. */
  function SavePreferencesCall(base: string, category: string, selectedFields: seq<string>, storedToken: Option<string>)
    : (c: Call)
    ensures c.request.verb == POST && c.request.query == []
    ensures c.request.url == base + EndpointPath(Preferences)
    ensures EndpointOf(base, c.request.url) == Some(Preferences)
    ensures c.request.body == Some(PreferencesBody(category, selectedFields))
    ensures c.request.headers == BearerHeaders(TemplateText(storedToken))
    ensures c.projection == Whole
  {
    EndpointOfUrl(base, Preferences);
    Call(Request(POST, base + EndpointPath(Preferences), [],
                 BearerHeaders(TemplateText(storedToken)), Some(PreferencesBody(category, selectedFields))),
         Whole)
  }

  /** The saved body carries exactly the category and the field keys, in order,
      and nothing else. */
  lemma PreferencesBodyRoundTrip(category: string, selectedFields: seq<string>)
    ensures var body := PreferencesBody(category, selectedFields);
      && body.props.Keys == {"category", "selectedFields"}
      && GetProperty(body, "category") == Some(Str(category))
      && GetProperty(body, "selectedFields").Some?
      && GetProperty(body, "selectedFields").value.Arr?
      && ReadStrings(GetProperty(body, "selectedFields").value.items) == Some(selectedFields)
  {
    ReadStringArray(selectedFields);
  }

  /** Which token a preferences request carries depends on the store alone. */
  lemma PreferencesTokenFromStore(base: string, category: string, fields: seq<string>, stored: Option<string>)
    ensures FetchPreferencesCall(base, category, stored).request.headers
         == SavePreferencesCall(base, category, fields, stored).request.headers
         == BearerHeaders(TemplateText(stored))
  {
  }
}
