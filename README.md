# CRM dashboard: navigation guard and API request construction

A Dafny model of the parts of a single-page CRM dashboard that carry stateable
logic:

- the **route table** and the **navigation guard** (`src/router/index.js`).
  Before every transition the guard reads the stored session token and the
  target route's metadata. It redirects to `/login`, redirects to `/`, or lets
  the navigation through.
- the **request construction** of the API wrappers
  (`src/services/hubspotService.js`, `src/services/statsService.js`). Each
  wrapper builds a request (method, URL, ordered query parameters, a `Bearer`
  header, and a POST body for one of them). It then returns a projection of the
  response body (`data`, `data.fields` or `data.preferences`), or rethrows the
  caught error unchanged.

Modules, one per source file plus shared pieces:

| module | file | models |
|---|---|---|
| `Wrappers` | wrappers.dfy | `Option` |
| `JsValues` | js_values.dfy | truthiness, template-literal text of `null`, `String(n)` for integers, property reads on a decoded JSON body |
| `UrlSearchParams` | search_params.dfy | a URL's query list and its `set` method (section 6.2 of the WHATWG URL Standard), as a function `SetParam` and a class `SearchParams` whose `Set` updates the list in place |
| `Api` | api.dfy | `Request`, `Reply`, `Call`, `Settle` (the shared try/return/catch-rethrow shape), endpoint paths and their decoding |
| `Router` | router.dfy | `Routes`, `FindRoute`, `Guard`, `Navigate`, `Target` |
| `HubspotService` | hubspot_service.dfy | list, fields, export and preferences calls |
| `StatsService` | stats_service.dfy | `getStats`, `dynamicSearch` |

Each service function is a `Call`: the request handed to the HTTP client, plus
the `Projection` of the body it returns. `Run(call, reply)` gives the settled
result. The per-entity wrappers take the entity as a parameter:

- `SearchableList` models `getContacts` (hubspotService.js:6-30), `getCompanies`
  (47-69), `getDeals` (132-161) and `getProducts` (206-228).
- `PagedList` models `getQuotes` (257-275), `getPayments` (304-322), `getInvoices`
  (351-369) and `getSubscriptions` (398-416).
- `FieldsCall` models the eight `fetch*Fields` functions (32-44, 70-82, 162-175,
  229-241, 276-288, 323-335, 370-382, 417-429).
- `ExportCall` models the eight `exportAll*` functions (83-95, 176-188, 191-203,
  242-254, 289-301, 336-348, 383-395, 430-442).

The list builders create a URL and issue successive conditional `set` calls on
its parameter list, so they are methods that allocate a `SearchParams` object
and call `Set`. Their result is proved equal to `ListQuery`, which states the
expected list outright. The single-expression request functions are functions.

Two facts about the code shape the model:

- `getStats` takes the token as an argument (statsService.js:5-13). Only
  `fetchPreferences` and `savePreferences` read the token store.
- `limit` is always sent, the default 10 included (hubspotService.js:9).

The configured backend origin (`API_URL`) is the parameter `base`. The token is
explicit: `token` for a wrapper's argument, and `storedToken` for what the token
store holds under `hubspotToken`, where `None` stands for an empty store. A
template literal renders an empty store as the text `null`, so the header
becomes `Bearer null` (hubspotService.js:103, 119).

## Model

| member | source | states |
|---|---|---|
| `Router.FindRoute` | src/router/index.js:20-121 | the route found has exactly the requested path and belongs to the table; no route is found only when no path in the table matches |
| `Router.FindRouteAt` | src/router/index.js:20-121 | in a table with distinct paths, looking up a route's own path returns that route |
| `Router.MetaOf` | src/router/index.js:123-125 | a path that no route matches gives empty metadata (both flags false) |
| `Router.Guard` | src/router/index.js:123-132 | redirect to `/login` exactly when the target requires authentication and no truthy token is stored; redirect to `/` exactly when the target is no-auth-only and a token is stored; proceed in every other case; `requiresAuth` wins when a route carries both flags and there is no token |
| `Router.GuardMatchesTable` | src/router/index.js:125-131 | the guard agrees on every input with the three-way decision table written out case by case |
| `Router.GuardTokenTruthiness` | src/router/index.js:124-125 | only token truthiness matters: an empty stored token acts like no token |
| `Router.RoutePathsDistinct` | src/router/index.js:20-116 | no two routes of the table share a path |
| `Router.ProtectedRoutes` | src/router/index.js:20-116 | every route except `/login` and `/login-success` has `requiresAuth`; no route sets both flags |
| `Router.MetaOfLogin` | src/router/index.js:57-79 | `/login` is no-auth-only with the auth layout, `/login-success` has no metadata, `/` requires authentication |
| `Router.LoginSuccessAlwaysProceeds` | src/router/index.js:66-70 | the login callback is let through whatever the token state |
| `Router.ProtectedRouteDecision` | src/router/index.js:20-116 | each protected route of the table redirects to `/login` without a token and is entered with one |
| `Router.Navigate` | src/router/index.js:123-132 | a path that matches no route of the table is always let through |
| `Router.Target` | src/router/index.js:123-132 | navigation lands on `/login` after a login redirect, on `/` after a home redirect, and on the requested path when the guard proceeds; the landing path itself passes the guard under the same token state |
| `Router.RedirectSettles` | src/router/index.js:123-132 | the target of a redirect passes the guard under the same token state, so one redirect settles every navigation |
| `JsValues.TemplateTextNullCollision` | src/services/hubspotService.js:103 | an empty store and a stored literal `"null"` render the same header text; every other stored token renders differently from the empty store |
| `JsValues.NumberToString` | src/services/hubspotService.js:9 | for limits below 10^21 in magnitude, the `limit` text is non-empty; it starts with a digit for a non-negative limit and with `-` for a negative one |
| `JsValues.NumberToStringRoundTrip` | src/services/hubspotService.js:9 | reading the `limit` text back as an integer gives the limit passed in |
| `JsValues.NumberToStringInjective` | src/services/hubspotService.js:9 | different limits give different `limit` texts |
| `UrlSearchParams.SetParamAbsent` | src/services/hubspotService.js:9-17 | `set` of a name not in the list appends the pair at the end and leaves the rest alone |
| `UrlSearchParams.SetParamPresent` | src/services/hubspotService.js:9-17 | `set` of a name already in the list gives the first such pair the new value in place and removes every later pair with that name |
| `UrlSearchParams.SetParamGet` | src/services/hubspotService.js:9-17 | after `set(k, v)`, `get(k)` is `v` and every other name reads as before |
| `UrlSearchParams.SetParamCount` | src/services/hubspotService.js:9-17 | after `set(k, v)`, exactly one pair is named `k` and every other name occurs as often as before |
| `UrlSearchParams.SetParamKeepsDistinct` | src/services/hubspotService.js:9-17 | `set` never creates a duplicate key |
| `UrlSearchParams.SetParamKeepsOthers` | src/services/hubspotService.js:9-17 | pairs with other names keep their relative order |
| `UrlSearchParams.SetParamOverwrite` | src/services/hubspotService.js:9-17 | a second `set` of the same name overrides the first; `set` is idempotent |
| `UrlSearchParams.SearchParams.constructor` | src/services/hubspotService.js:8 | a new URL without a query string has an empty parameter list |
| `UrlSearchParams.SearchParams.Set` | src/services/hubspotService.js:9 | the list becomes `SetParam` of the old list; `get(name)` afterwards is the new value; distinct keys stay distinct |
| `Api.BearerHeaders` | src/services/hubspotService.js:20-24 | the one header is `Authorization`, with value `Bearer ` followed by the token text |
| `Api.Settle` | src/services/hubspotService.js:20-30 | a failed call is rethrown with its own error; a whole-body projection returns `response.data` unchanged; a field projection throws a TypeError on a nullish body, returns the member of an object that has it, and returns `undefined` for any other body |
| `Api.Run` | src/services/statsService.js:15-19 | a call's result is its reply's error rethrown, or the body projected as the call declares |
| `Api.EndpointRoundTrip` | src/services/hubspotService.js:8-442 | every endpoint path (`/<entity>`, `/<entity>/user/fields`, `/<entity>/all`, `/preferences`, `/stats`, `/dynamic-search`) decodes back to the endpoint it was built from |
| `Api.EndpointOfUrl` | src/services/hubspotService.js:8 | a URL made of the origin followed by an endpoint path addresses that endpoint |
| `Api.EndpointPathInjective` | src/services/hubspotService.js:8-442 | distinct endpoints have distinct paths; `fetchPreferences` and `savePreferences` share the path `/preferences`; the server tells them apart by method |
| `HubspotService.BuildListQuery` | src/services/hubspotService.js:8-18 | the successive `set` calls of a list builder yield exactly `limit`, then `nextPage` when the cursor is truthy, then `search` when the string is non-empty |
| `HubspotService.SearchableList` | src/services/hubspotService.js:6-30 | GET of `/<entity>` with that query and the bearer header, no body, returning the whole body; `limit`, `nextPage` and `search` default to 10, none and "" as in the source |
| `HubspotService.PagedList` | src/services/hubspotService.js:257-275 | the same request without any search parameter |
| `HubspotService.ListQueryShape` | src/services/hubspotService.js:9-18 | `limit` is first; `nextPage` is present exactly when the cursor is truthy and carries it verbatim; `search` is present exactly when non-empty and is last; there are no other keys and no key twice |
| `HubspotService.ListQueryRoundTrip` | src/services/hubspotService.js:6-18 | a server reading the query recovers the limit, the cursor when truthy, and the search string |
| `HubspotService.PagedQueryKeys` | src/services/hubspotService.js:257-263 | list builders without search only send `limit` and `nextPage` |
| `HubspotService.DefaultListQuery` | src/services/hubspotService.js:6-9 | with default arguments the query is exactly `limit=10` |
| `HubspotService.FieldsCall` | src/services/hubspotService.js:32-44 | GET of `/<entity>/user/fields` with no query and the bearer header, returning only `data.fields` |
| `HubspotService.FieldsResult` | src/services/hubspotService.js:32-43 | a fields call yields the `fields` member, or `undefined` when a non-nullish body lacks it; it throws a TypeError on a nullish body and rethrows a failed request's error |
| `HubspotService.ExportCall` | src/services/hubspotService.js:191-203 | GET of `/<entity>/all` with no query and the bearer header, returning the body unchanged |
| `HubspotService.FetchPreferencesCall` | src/services/hubspotService.js:98-111 | GET of `/preferences` with `category` as the only parameter and the stored token in the header (`Bearer null` for an empty store), returning `data.preferences` |
| `HubspotService.SavePreferencesCall` | src/services/hubspotService.js:112-128 | POST to `/preferences` with body `{category, selectedFields}` and the stored token in the header, returning the whole body |
| `HubspotService.PreferencesBodyRoundTrip` | src/services/hubspotService.js:114-116 | the saved body has exactly the keys `category` and `selectedFields`, and they read back as the category and the field keys in order |
| `HubspotService.PreferencesTokenFromStore` | src/services/hubspotService.js:98-123 | both preferences requests carry the header built from the stored token alone |
| `StatsService.StatsCall` | src/services/statsService.js:5-19 | GET of `/stats` with no query parameters and the bearer header, returning the whole body |
| `StatsService.DynamicSearchCall` | src/services/statsService.js:22-53 | GET of `/dynamic-search` whose query is exactly `query=<searchTerm>`, even for an empty term, with the bearer header, returning the whole body |

## Left out

- The HTTP client (axios), `async`/`await` and the network. These are foreign calls. A call's reply is an abstract `Reply` (a delivered body or an error), and the model states how each wrapper turns it into its result.
- `console.error` logging, including its message text. It does not affect any result.
- The token store (`localStorage`) as ambient state. What the store holds is the explicit parameter `storedToken`.
- Percent-encoding and the serialisation of a URL and its query to a string via `url.toString()`, and URL normalisation. The model keeps the origin followed by the path, and the query as a list of pairs. The origin `API_URL` is set at build time and appears as the parameter `base`.
- How axios serialises its `params` option. `fetchPreferences` is modelled as sending the single pair `category`.
- `src/main.js` and `vite.config.js`: plugin bootstrapping and build configuration.
- Vue-router's `next` callback, history mode, components and layouts being rendered, and route names being used. Only the decision and its target are modelled. Path matching is exact string equality: trailing slashes, route parameters and aliases are not modelled.
- Argument tokens are strings. A wrapper called with a `null` token would send `Bearer null`; only the stored-token functions model that case.
- `HubspotService.SearchableList`: `limit` is an integer. `String()` of a fractional or non-numeric `limit` is not modelled, and `nextPage` is a string or absent. A cursor of another JavaScript type is not modelled.
- `JsValues.GetProperty`: on an array, string, number or boolean, every key reads as `undefined`, including own members such as `length` and indices. On an object, only its own members are found; members inherited from `Object.prototype` read as `undefined`. The program reads only `fields` and `preferences`, and none of these values carry either.
- `JsValues.NumberToString`: only limits with magnitude below 10^21 that a double represents exactly are modelled. JavaScript renders larger magnitudes in exponent form: `String(1e21)` is `"1e+21"`. The model writes every integer as plain decimal, so `NumberToStringRoundTrip` is only about limits in that range.
- Route matching is case-sensitive in the model. vue-router 3 matches paths case-insensitively by default, so with no token `/CONTACTS` redirects to `/login` in the program but proceeds in the model.
- The origin `base` is assumed to be a valid absolute URL with no query or fragment. Otherwise `new URL` throws inside the `try` (hubspotService.js:8, statsService.js:7, 25), and the model does not cover that failure.
- `search`, `searchTerm`, `category` and `selectedFields` are modelled only as strings (or a list of strings). Another JavaScript value is converted by `set` or by axios: `set("query", undefined)`, for example, sends `"undefined"`.
- Saving preferences and then fetching them returning the same fields is a property of the backend. The model cannot state it on the client side.
