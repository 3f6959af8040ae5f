# Content-negotiating deals front end

This project models an HTTP front end that serves one resource, a fixed list of
"deals", in three formats: a REST JSON list at `/api/deals`, a GraphQL endpoint
mounted at the `/graphql` prefix, and an HTML page at `/deals`. A middleware,
`DynamicAPIMiddleware.dispatch`, looks at every request before routing. It reads
the `Accept` and `Content-Type` header values, with `""` for a missing header.
It then rewrites the request path in place by the first rule that matches:

1. `Accept` contains `application/json`, or `Content-Type` is exactly
   `application/json`: the path becomes `/api/deals`.
2. `Accept` contains `application/graphql`, or the path starts with `/graphql`:
   the path becomes `/graphql`.
3. `Accept` contains `text/html`: the path becomes `/deals`.
4. Otherwise the path is left as it was.

The request is then handed to the next stage, and its response is returned untouched.
The route table then serves the rewritten path. `/api/deals` and `/deals` are
declared for GET only, and the GraphQL router takes GET and POST, so the method
of the request decides whether a route answers or refuses it.

Modules:

- `Text` (text.dfy): Python's `sub in s` and `s.startswith(p)` as recursive
  functions, each proved equal to a declarative definition (`IsSubstring`, `IsPrefix`).
- `Deals` (deals.dfy): the `Deal` record, the constant store and the REST handler.
- `Negotiation` (negotiation.dfy): the `Target` variants, the pure decision
  `Decide`, and lemmas about priority, normalisation, fallback and idempotence.
- `Routing` (routing.dfy): the static route table with each route's methods, the
  handlers' responses, and lemmas tying the rewritten path to the handler and
  response format that serve it.
- `Middleware` (middleware.dfy): a `Request` class with a mutable `path` field.
  Its `Dispatch` method performs the rewrite step by step, as the source does,
  and is proved to agree with `Decide`. `HandleRequest` runs one request through
  the middleware and the route table.

`call_next` is a function parameter of `Dispatch`, from the request's method,
headers and current path to a response.

## Model

| member | source | states |
|---|---|---|
| `Text.StartsWith` | dynamic_API_router.py:54 | `s.startswith(p)` is true exactly when `p` is a prefix of `s` |
| `Text.Contains` | dynamic_API_router.py:52 | `sub in s` is true exactly when `sub` occurs at some offset of `s`; the empty string occurs in every string |
| `Deals.GetDeals` | dynamic_API_router.py:14-24 | the REST handler returns the stored list in stored order: two deals with ids 1 and 2; ids are positive and unique, prices non-negative, locations non-empty |
| `Negotiation.Header` | dynamic_API_router.py:49-50 | a header present in the request reads as its value; a missing header reads as `""` |
| `Negotiation.Decide` | dynamic_API_router.py:52-57 | REST is chosen iff there is a JSON signal; GraphQL iff there is no JSON signal and there is a GraphQL signal; HTML iff only the HTML signal is present; Unresolved iff there is none. The new path is the selected target's route, or the original path when Unresolved |
| `Negotiation.DecideRequest` | dynamic_API_router.py:49-57 | the decision rewrites to the selected target's route or keeps the path; an `Accept` header containing `application/json` or a `Content-Type` header equal to it selects `/api/deals`; with neither header present, the request goes to GraphQL exactly when its path starts with `/graphql` and is otherwise left alone |
| `Negotiation.JsonAcceptAlwaysRest` | dynamic_API_router.py:52-53 | `application/json` anywhere in `Accept` rewrites to `/api/deals`, whatever the path and `Content-Type` are |
| `Negotiation.ContentTypeExactMatch` | dynamic_API_router.py:50-53 | with no JSON in `Accept`, REST is chosen if and only if `Content-Type` equals `application/json` exactly |
| `Negotiation.CharsetContentTypeIsNotJson` | dynamic_API_router.py:49-53 | `Content-Type: application/json; charset=utf-8` with no `Accept` and a path outside `/graphql` leaves the request unrewritten |
| `Negotiation.JsonBeatsGraphQL` | dynamic_API_router.py:52-55 | any JSON signal selects REST even when the path starts with `/graphql` |
| `Negotiation.GraphQLBeatsHtml` | dynamic_API_router.py:54-57 | without a JSON signal, a GraphQL signal selects `/graphql`, even if `Accept` also names HTML |
| `Negotiation.HtmlAcceptOnGraphQLPath` | dynamic_API_router.py:52-57 | `Accept: text/html` on a path under `/graphql` yields `/graphql` |
| `Negotiation.HtmlSelectedWithoutOtherSignals` | dynamic_API_router.py:56-57 | HTML in `Accept` with no JSON or GraphQL signal rewrites to `/deals` |
| `Negotiation.GraphQLPrefixNormalised` | dynamic_API_router.py:54-55 | with neither header, every path `/graphql` + rest becomes exactly `/graphql` |
| `Negotiation.FallbackKeepsPath` | dynamic_API_router.py:52-59 | when no rule matches, the decision is Unresolved and the path is unchanged; `Decide` has no precondition, so no request is rejected |
| `Negotiation.MissingHeadersLeavePathAlone` | dynamic_API_router.py:49-50 | missing headers read as `""`, so a request with neither header and a path outside `/graphql` is not rewritten |
| `Negotiation.RewrittenPathIsRouteOrOriginal` | dynamic_API_router.py:52-57 | the resulting path is `/api/deals`, `/graphql`, `/deals` or the original path |
| `Negotiation.Idempotent` | dynamic_API_router.py:52-57 | deciding again, with the same headers, on the rewritten path gives the same target and path |
| `Routing.Route` | dynamic_API_router.py:22-42 | the three routes the file declares: among them, a path has a handler exactly when it is `/api/deals`, `/graphql` or `/deals`, and each of those paths reaches its own handler |
| `Routing.Methods` | dynamic_API_router.py:22-42 | the REST list and the HTML page are GET routes; the GraphQL mount also takes POST; an unrouted path allows no method |
| `Routing.HandlerFor` | dynamic_API_router.py:22-57 | each selected target's canonical path routes to a handler, whatever the original path was |
| `Routing.Serve` | dynamic_API_router.py:22-44 | REST answers with the JSON list, GraphQL with the query result, the page with the template named `deals.html`, each exactly when the method is allowed and each carrying the unchanged store; a disallowed method on a routed path gets "method not allowed"; only an unrouted path gets "not found" |
| `Routing.RewriteReachesSelectedHandler` | dynamic_API_router.py:22-57 | the rewritten path routes to the handler of the selected target; an Unresolved request routes by its original path |
| `Routing.GraphQLPrefixCollapsed` | dynamic_API_router.py:39-57 | after the rewrite, the only path starting with `/graphql` is `/graphql` itself |
| `Routing.SelectedTargetIsServed` | dynamic_API_router.py:22-57 | a selected target is never answered "not found": REST gets the JSON list on GET, GraphQL the query result on GET or POST, HTML the page on GET, and any other method "method not allowed" |
| `Routing.UnresolvedDealsPathServedStatically` | dynamic_API_router.py:42-57 | with no recognised `Accept` value and a `Content-Type` other than `application/json`, path `/deals` is not rewritten and a GET is served the HTML page by its static route |
| `Routing.JsonAcceptReturnsStore` | dynamic_API_router.py:14-53 | `Accept: application/json` on a GET yields the JSON list `[{1, 100000, "City A"}, {2, 150000, "City B"}]` in stored order; under any other method the request is refused with "method not allowed" |
| `Routing.JsonGraphQLPostNotAllowed` | dynamic_API_router.py:22-55 | a POST to `/graphql` with `Content-Type: application/json` is rewritten to `/api/deals`, a GET-only route, and is refused with "method not allowed"; it never reaches the GraphQL router |
| `Middleware.Request.constructor` | dynamic_API_router.py:48 | a request starts with the given method, headers and path |
| `Middleware.Request.Dispatch` | dynamic_API_router.py:48-60 | the in-place rewrite leaves `path` equal to `Decide`'s path for the looked-up headers and the old path; the method and headers are unchanged; the response is exactly what the next stage returns for the rewritten request |
| `Middleware.HandleRequest` | dynamic_API_router.py:22-62 | the response is the routed handler's answer for the request's method and rewritten path; a JSON `Accept` gets the JSON store on GET and "method not allowed" otherwise; an Unresolved request is served as if there were no middleware |

## Left out

- Header lookup is modelled on a `map` with exact keys. Starlette's case-insensitive header lookup is library behaviour.
- GraphQL schema execution and field projection (strawberry, graphene) are not modelled. The GraphQL handler's response only records the list its resolver returns. The mixing of graphene's `Schema` with strawberry types is not modelled either.
- Jinja2 rendering of `deals.html` is not modelled; the template file is not part of this model. The HTML response records the template name and the list bound to it.
- JSON serialisation of response bodies and HTTP status codes are not modelled. The framework's 404 and 405 answers are the `NotFound` and `MethodNotAllowed` tags.
- Routing.Serve: does not model the framework's trailing-slash redirect. An unrewritten `/deals/` or `/api/deals/` is answered with a 307 redirect to the route without the slash, where the model answers `NotFound`. The redirect is routing-library behaviour. `Routing.Route`, `Middleware.HandleRequest` and `Routing.SelectedTargetIsServed` route by exact path for the same reason; a selected target's path never ends in a slash, so only Unresolved requests are affected.
- Routing.Route: holds only the three routes the file declares. The framework's default documentation routes (`/openapi.json`, `/docs`, `/docs/oauth2-redirect` and `/redoc`) are not modelled. An Unresolved `GET /docs` is served the documentation page by the application, where `Routing.Serve` and `Middleware.HandleRequest` answer `NotFound`. Only Unresolved requests are affected: a selected target's path is always one of the three declared routes.
- Routing.Methods: takes each route's methods as declared (`GET` for the two `app.get` routes). Whether the framework also answers HEAD on a GET route is library behaviour and is not modelled. `Routing.JsonAcceptReturnsStore`, `Routing.SelectedTargetIsServed` and `Middleware.HandleRequest` give "method not allowed" for every method the route does not declare.
- Paths below the `/graphql` mount inside the GraphQL router are the library's own. `Route` matches `/graphql` exactly. `Routing.GraphQLPrefixCollapsed` shows that no other path under the prefix reaches the table after the rewrite.
- Async execution, `call_next` scheduling, concurrency between requests, application construction, `add_middleware` and the uvicorn start-up are not modelled. `HandleRequest` stands for the composed application.
- A lookup of one deal by id is not modelled: the source has no such operation.
