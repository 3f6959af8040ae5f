/** The static route table that serves the rewritten path, and the handlers behind it. */
module Routing {
  import opened Text
  import opened Deals
  import opened Negotiation

  const Get := "GET"
  const Post := "POST"

  datatype Handler = RestDeals | GraphQLRouter | DealsPage | NoRoute

  /** What a handler answers with. GraphQL execution and template rendering
      belong to foreign libraries, so only what the handler hands them is kept.
      A path that matches a route under a method the route is not declared for
      is answered "method not allowed"; a path that matches no route, "not found". */
  datatype Response =
    | JsonDeals(deals: seq<Deal>)
    | HtmlTemplate(template: string, deals: seq<Deal>)
    | GraphQLQuery(deals: seq<Deal>)
    | MethodNotAllowed
    | NotFound

  /** Path to handler, as the application declares its routes: REST at
      `/api/deals`, the GraphQL router mounted at `/graphql`, the page at `/deals`. */
  function Route(path: string): (h: Handler)
    ensures h != NoRoute <==> path in {RestPath, GraphQLPath, HtmlPath}
    ensures h == RestDeals <==> path == RestPath
    ensures h == GraphQLRouter <==> path == GraphQLPath
    ensures h == DealsPage <==> path == HtmlPath
  {
    if path == RestPath then RestDeals
    else if path == GraphQLPath then GraphQLRouter
    else if path == HtmlPath then DealsPage
    else NoRoute
  }

  /** The HTTP methods each route is declared for: the REST list and the page
      are GET routes, the GraphQL router takes queries by GET and by POST. */
  function Methods(h: Handler): (m: set<string>)
    ensures Get in m <==> h != NoRoute
    ensures Post in m <==> h == GraphQLRouter
    ensures m <= {Get, Post}
  {
    match h
    case RestDeals => {Get}
    case GraphQLRouter => {Get, Post}
    case DealsPage => {Get}
    case NoRoute => {}
  }

  /** The handler that serves each selected target: the route its canonical path reaches. */
  function HandlerFor(t: Target): (h: Handler)
    requires t != Unresolved
    ensures h != NoRoute
    ensures forall original :: Route(CanonicalPath(t, original)) == h
  {
    match t
    case REST => RestDeals
    case GraphQL => GraphQLRouter
    case HTML => DealsPage
  }

  /** Each handler answers in its own format from the unchanged store. */
  function Serve(h: Handler, verb: string): (r: Response)
    ensures r == NotFound <==> h == NoRoute
    ensures r == MethodNotAllowed <==> h != NoRoute && verb !in Methods(h)
    ensures r.JsonDeals? <==> h == RestDeals && verb in Methods(h)
    ensures r.GraphQLQuery? <==> h == GraphQLRouter && verb in Methods(h)
    ensures r.HtmlTemplate? <==> h == DealsPage && verb in Methods(h)
    ensures r.JsonDeals? || r.GraphQLQuery? || r.HtmlTemplate? ==> r.deals == Store
    ensures r.HtmlTemplate? ==> r.template == "deals.html"
  {
    if verb !in Methods(h) then
      if h == NoRoute then NotFound else MethodNotAllowed
    else
      match h
      case RestDeals => JsonDeals(GetDeals())
      case GraphQLRouter => GraphQLQuery(Store)
      case DealsPage => HtmlTemplate("deals.html", Store)
  }

  /** The rewritten path reaches the selected handler; when nothing was selected,
      the original path is routed as it stands. */
  lemma RewriteReachesSelectedHandler(accept: string, contentType: string, path: string)
    ensures var d := Decide(accept, contentType, path);
            (d.target != Unresolved ==> Route(d.path) == HandlerFor(d.target)) &&
            (d.target == Unresolved ==> Route(d.path) == Route(path))
  {
  }

  /** After the rewrite, the only path left under the GraphQL prefix is the GraphQL
      route itself, so the prefix mount and an exact route agree on what they receive. */
  lemma GraphQLPrefixCollapsed(accept: string, contentType: string, path: string)
    ensures var d := Decide(accept, contentType, path);
            IsPrefix(GraphQLPath, d.path) ==> d.path == GraphQLPath
  {
    // "/api/deals" and "/graphql" differ at their second character.
    assert RestPath[..|GraphQLPath|][1] != GraphQLPath[1];
  }

  /** Each selected target is answered in its own format, provided the request's
      method is one its route is declared for; it is never answered "not found". */
  lemma SelectedTargetIsServed(accept: string, contentType: string, path: string, verb: string)
    ensures var d := Decide(accept, contentType, path);
            var r := Serve(Route(d.path), verb);
            (d.target != Unresolved ==> r != NotFound) &&
            (d.target == REST ==> r == if verb == Get then JsonDeals(Store) else MethodNotAllowed) &&
            (d.target == GraphQL ==>
              r == if verb in {Get, Post} then GraphQLQuery(Store) else MethodNotAllowed) &&
            (d.target == HTML ==>
              r == if verb == Get then HtmlTemplate("deals.html", Store) else MethodNotAllowed)
  {
  }

  /** A request with no recognised `Accept` value, no JSON `Content-Type` and
      path `/deals` is left unrewritten, and a GET is served the HTML page by its
      static route. */
  lemma UnresolvedDealsPathServedStatically(accept: string, contentType: string)
    requires !IsSubstring(JsonMedia, accept) && !IsSubstring(GraphQLMedia, accept)
    requires !IsSubstring(HtmlMedia, accept) && contentType != JsonMedia
    ensures Decide(accept, contentType, HtmlPath) == Decision(Unresolved, HtmlPath)
    ensures Serve(Route(Decide(accept, contentType, HtmlPath).path), Get) == HtmlTemplate("deals.html", Store)
  {
  }

  /** `Accept: application/json` on a GET yields the JSON list of both deals, in
      stored order; under any other method the REST route refuses the request. */
  lemma JsonAcceptReturnsStore(contentType: string, path: string, verb: string)
    ensures var r := Serve(Route(Decide(JsonMedia, contentType, path).path), verb);
            (verb == Get ==>
              r == JsonDeals(Store) &&
              r.deals[0] == Deal(1, 100000, "City A") && r.deals[1] == Deal(2, 150000, "City B")) &&
            (verb != Get ==> r == MethodNotAllowed)
  {
    assert "" + JsonMedia + "" == JsonMedia;
    JsonAcceptAlwaysRest("", "", contentType, path);
  }

  /** A GraphQL query POSTed with `Content-Type: application/json` to `/graphql`
      is rewritten to the REST route, which takes only GET, so it never reaches
      the GraphQL router. */
  lemma JsonGraphQLPostNotAllowed(accept: string)
    ensures Decide(accept, JsonMedia, GraphQLPath) == Decision(REST, RestPath)
    ensures Serve(Route(Decide(accept, JsonMedia, GraphQLPath).path), Post) == MethodNotAllowed
  {
  }
}
