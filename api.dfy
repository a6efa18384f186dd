/** What every service function shares: the request description handed to the
    HTTP client (`axios.get` / `axios.post`), the bearer header, the backend's
    endpoint paths, and how a reply becomes the function's result (a projection
    of the response body, or the caught error thrown again unchanged). */
module Api {
  import opened Wrappers
  import opened JsValues
  import opened UrlSearchParams

  datatype HttpMethod = GET | POST

  /** A request as handed to the HTTP client: method, full URL (the configured
      backend origin followed by an endpoint path), query pairs in order,
      headers, and the JSON body of a POST. */
  datatype Request = Request(
    verb: HttpMethod,
    url: string,
    query: seq<Param>,
    headers: seq<Param>,
    body: Option<Json>)

  /** The single header every call sends: `Authorization: Bearer <token>`. */
  function BearerHeaders(tokenText: string): (h: seq<Param>)
    ensures |h| == 1 && h[0].0 == "Authorization"
    ensures |h[0].1| >= 7 && h[0].1[..7] == "Bearer " && h[0].1[7..] == tokenText
  {
    [("Authorization", "Bearer " + tokenText)]
  }

  /** Why a call failed: no response, a non-2xx status (both raised by the HTTP
      client), or a property read on a `null`/`undefined` body. */
  datatype Error = NetworkError(detail: string) | HttpStatus(status: int) | TypeError(property: string)

  /** What the HTTP client's promise settles to. */
  datatype Reply = Delivered(data: Json) | Rejected(error: Error)

  /** What a service function's promise settles to. */
  datatype Outcome = Resolved(value: Json) | Thrown(error: Error)

  /** Which part of `response.data` a function returns. */
  datatype Projection = Whole | Field(key: string)

  /** The `try { … return response.data[.key] } catch (e) { throw e }` shape:
      a rejected call is rethrown unchanged, a delivered one is projected, and
      reading a property of a nullish body throws inside the same `try`. */
  function Settle(reply: Reply, p: Projection): (o: Outcome)
    ensures reply.Rejected? ==> o == Thrown(reply.error)
    ensures reply.Delivered? && p.Whole? ==> o == Resolved(reply.data)
    ensures reply.Delivered? && p.Field? ==>
      (o.Thrown? <==> Nullish(reply.data)) &&
      (o.Thrown? ==> o.error == TypeError(p.key)) &&
      (reply.data.Obj? && p.key in reply.data.props ==> o == Resolved(reply.data.props[p.key])) &&
      (!Nullish(reply.data) && !(reply.data.Obj? && p.key in reply.data.props) ==> o == Resolved(Undefined))
  {
    match reply
    case Rejected(e) => Thrown(e)
    case Delivered(data) =>
      match p
      case Whole => Resolved(data)
      case Field(key) =>
        match GetProperty(data, key)
        case None => Thrown(TypeError(key))
        case Some(v) => Resolved(v)
  }

  /** A service function as a value: the request it issues and the part of the
      response body it returns. */
  datatype Call = Call(request: Request, projection: Projection)

  /** The settled result of a call given the HTTP client's reply. */
  function Run(c: Call, reply: Reply): (o: Outcome)
    ensures reply.Rejected? ==> o == Thrown(reply.error)
    ensures reply.Delivered? && c.projection.Whole? ==> o == Resolved(reply.data)
  {
    Settle(reply, c.projection)
  }

  // ---------------------------------------------------------------------------
  // Endpoints of the backend.

  datatype Entity = Contacts | Companies | Deals | Products | Quotes | Payments | Invoices | Subscriptions {

    /** The path segment naming the entity. */
    function Name(): string {
      match this
      case Contacts => "contacts"
      case Companies => "companies"
      case Deals => "deals"
      case Products => "products"
      case Quotes => "quotes"
      case Payments => "payments"
      case Invoices => "invoices"
      case Subscriptions => "subscriptions"
    }

    /** Whether the entity's list function takes a search string. */
    predicate TakesSearch() {
      this in {Contacts, Companies, Deals, Products}
    }
  }

  /** The three request shapes per entity: a page of records, the user's field
      descriptors, and the unpaginated export. */
  datatype Kind = List | Fields | Export

  datatype Endpoint = Records(entity: Entity, kind: Kind) | Preferences | Stats | DynamicSearch

  function KindSuffix(k: Kind): string {
    match k
    case List => ""
    case Fields => "/user/fields"
    case Export => "/all"
  }

  /** The path after the backend origin: `/<entity>`, `/<entity>/user/fields`,
      `/<entity>/all`, `/preferences`, `/stats`, `/dynamic-search`. */
  function EndpointPath(ep: Endpoint): string {
    match ep
    case Records(e, k) => "/" + e.Name() + KindSuffix(k)
    case Preferences => "/preferences"
    case Stats => "/stats"
    case DynamicSearch => "/dynamic-search"
  }

  function EntityNamed(s: string): (r: Option<Entity>)
    ensures r.Some? ==> r.value.Name() == s
  {
    if s == "contacts" then Some(Contacts)
    else if s == "companies" then Some(Companies)
    else if s == "deals" then Some(Deals)
    else if s == "products" then Some(Products)
    else if s == "quotes" then Some(Quotes)
    else if s == "payments" then Some(Payments)
    else if s == "invoices" then Some(Invoices)
    else if s == "subscriptions" then Some(Subscriptions)
    else None
  }

  predicate EndsWith(s: string, suffix: string) {
    |suffix| <= |s| && s[|s| - |suffix|..] == suffix
  }

  function RecordsAt(segment: string, k: Kind): Option<Endpoint> {
    match EntityNamed(segment)
    case None => None
    case Some(e) => Some(Records(e, k))
  }

  /** The backend's reading of a path: which endpoint it names, if any. */
  function ParseEndpointPath(p: string): Option<Endpoint> {
    if |p| == 0 || p[0] != '/' then None
    else
      var rest := p[1..];
      if rest == "preferences" then Some(Preferences)
      else if rest == "stats" then Some(Stats)
      else if rest == "dynamic-search" then Some(DynamicSearch)
      else if EndsWith(rest, "/user/fields") then RecordsAt(rest[..|rest| - 12], Fields)
      else if EndsWith(rest, "/all") then RecordsAt(rest[..|rest| - 4], Export)
      else RecordsAt(rest, List)
  }

  predicate NoSlash(s: string) {
    forall i :: 0 <= i < |s| ==> s[i] != '/'
  }

  lemma EntityNameRoundTrip(e: Entity)
    ensures EntityNamed(e.Name()) == Some(e)
    ensures NoSlash(e.Name())
    ensures e.Name() !in {"preferences", "stats", "dynamic-search"}
  {
  }

  /** A string without '/' cannot end with a suffix that starts with '/'. */
  lemma NoSlashNotEndsWith(s: string, suffix: string)
    requires NoSlash(s) && |suffix| > 0 && suffix[0] == '/'
    ensures !EndsWith(s, suffix)
  {
  }

  lemma ListRoundTrip(e: Entity)
    ensures ParseEndpointPath(EndpointPath(Records(e, List))) == Some(Records(e, List))
  {
    var name := e.Name();
    EntityNameRoundTrip(e);
    var p := EndpointPath(Records(e, List));
    assert p == "/" + name && p[1..] == name;
    NoSlashNotEndsWith(name, "/user/fields");
    NoSlashNotEndsWith(name, "/all");
  }

  lemma FieldsRoundTrip(e: Entity)
    ensures ParseEndpointPath(EndpointPath(Records(e, Fields))) == Some(Records(e, Fields))
  {
    var name := e.Name();
    EntityNameRoundTrip(e);
    var rest := name + "/user/fields";
    var p := EndpointPath(Records(e, Fields));
    assert p == "/" + rest && p[1..] == rest;
    assert rest[|name|] == '/';
    assert !NoSlash(rest);
    assert rest[|rest| - 12..] == "/user/fields";
    assert rest[..|rest| - 12] == name;
  }

  lemma ExportRoundTrip(e: Entity)
    ensures ParseEndpointPath(EndpointPath(Records(e, Export))) == Some(Records(e, Export))
  {
    var name := e.Name();
    EntityNameRoundTrip(e);
    var rest := name + "/all";
    var p := EndpointPath(Records(e, Export));
    assert p == "/" + rest && p[1..] == rest;
    assert rest[|name|] == '/';
    assert !NoSlash(rest);
    assert !EndsWith(rest, "/user/fields");
    assert rest[|rest| - 4..] == "/all";
    assert rest[..|rest| - 4] == name;
  }

  /** Every endpoint path is read back as the endpoint it was built from. */
  lemma EndpointRoundTrip(ep: Endpoint)
    ensures ParseEndpointPath(EndpointPath(ep)) == Some(ep)
  {
    match ep
    case Records(e, List) => ListRoundTrip(e);
    case Records(e, Fields) => FieldsRoundTrip(e);
    case Records(e, Export) => ExportRoundTrip(e);
    case _ =>
  }

  /** The endpoint a full URL addresses, given the configured backend origin. */
  function EndpointOf(base: string, url: string): Option<Endpoint> {
    if |base| <= |url| && url[..|base|] == base then ParseEndpointPath(url[|base|..]) else None
  }

  /** The backend reads `base + EndpointPath(ep)` as `ep`. */
  lemma EndpointOfUrl(base: string, ep: Endpoint)
    ensures EndpointOf(base, base + EndpointPath(ep)) == Some(ep)
  {
    var url := base + EndpointPath(ep);
    assert url[..|base|] == base && url[|base|..] == EndpointPath(ep);
    EndpointRoundTrip(ep);
  }

  /** Distinct endpoints have distinct paths. The two preferences functions
      share the path `/preferences`; the server tells them apart by method. */
  lemma EndpointPathInjective(a: Endpoint, b: Endpoint)
    requires EndpointPath(a) == EndpointPath(b)
    ensures a == b
  {
    EndpointRoundTrip(a);
    EndpointRoundTrip(b);
  }
}
