/** The content-negotiation decision: which handler a request is sent to and what
    its path is rewritten to, from the `Accept` and `Content-Type` header values
    and the original path. */
module Negotiation {
  import opened Text

  const JsonMedia := "application/json"
  const GraphQLMedia := "application/graphql"
  const HtmlMedia := "text/html"

  const RestPath := "/api/deals"
  const GraphQLPath := "/graphql"
  const HtmlPath := "/deals"

  datatype Target = REST | GraphQL | HTML | Unresolved

  datatype Decision = Decision(target: Target, path: string)

  /** `headers.get(name, "")`: a missing header reads as the empty string. */
  function Header(headers: map<string, string>, name: string): (v: string)
    ensures name in headers ==> v == headers[name]
    ensures v != "" ==> name in headers
  {
    if name in headers then headers[name] else ""
  }

  /** `Accept` names JSON anywhere, or `Content-Type` is exactly JSON. */
  ghost predicate JsonSignal(accept: string, contentType: string)
  {
    IsSubstring(JsonMedia, accept) || contentType == JsonMedia
  }

  /** `Accept` names GraphQL anywhere, or the path is under the GraphQL prefix. */
  ghost predicate GraphQLSignal(accept: string, path: string)
  {
    IsSubstring(GraphQLMedia, accept) || IsPrefix(GraphQLPath, path)
  }

  /** `Accept` names HTML anywhere. */
  ghost predicate HtmlSignal(accept: string)
  {
    IsSubstring(HtmlMedia, accept)
  }

  /** The route a selected target is rewritten to; Unresolved keeps the original. */
  function CanonicalPath(t: Target, original: string): string
  {
    match t
    case REST => RestPath
    case GraphQL => GraphQLPath
    case HTML => HtmlPath
    case Unresolved => original
  }

  /** The first matching rule wins: JSON, then GraphQL, then HTML, else no rewrite. */
  function Decide(accept: string, contentType: string, path: string): (d: Decision)
    ensures d.target == REST <==> JsonSignal(accept, contentType)
    ensures d.target == GraphQL <==> !JsonSignal(accept, contentType) && GraphQLSignal(accept, path)
    ensures d.target == HTML <==>
      !JsonSignal(accept, contentType) && !GraphQLSignal(accept, path) && HtmlSignal(accept)
    ensures d.target == Unresolved <==>
      !JsonSignal(accept, contentType) && !GraphQLSignal(accept, path) && !HtmlSignal(accept)
    ensures d.path == CanonicalPath(d.target, path)
  {
    if Contains(accept, JsonMedia) || contentType == JsonMedia then
      Decision(REST, RestPath)
    else if Contains(accept, GraphQLMedia) || StartsWith(path, GraphQLPath) then
      Decision(GraphQL, GraphQLPath)
    else if Contains(accept, HtmlMedia) then
      Decision(HTML, HtmlPath)
    else
      Decision(Unresolved, path)
  }

  /** The decision for a request whose headers are looked up with `""` as default:
      a JSON `Accept` or `Content-Type` header selects REST, and with neither
      header present only the GraphQL prefix of the path can cause a rewrite. */
  function DecideRequest(headers: map<string, string>, path: string): (d: Decision)
    ensures d.path == CanonicalPath(d.target, path)
    ensures "Accept" in headers && IsSubstring(JsonMedia, headers["Accept"]) ==> d == Decision(REST, RestPath)
    ensures "Content-Type" in headers && headers["Content-Type"] == JsonMedia ==> d == Decision(REST, RestPath)
    ensures "Accept" !in headers && "Content-Type" !in headers ==>
              (d.target == GraphQL <==> IsPrefix(GraphQLPath, path)) &&
              (d.target == Unresolved <==> !IsPrefix(GraphQLPath, path))
  {
    Decide(Header(headers, "Accept"), Header(headers, "Content-Type"), path)
  }

  /** JSON named anywhere in `Accept` selects REST, whatever the path and `Content-Type`. */
  lemma {:induction false} JsonAcceptAlwaysRest(pre: string, post: string, contentType: string, path: string)
    ensures Decide(pre + JsonMedia + post, contentType, path) == Decision(REST, RestPath)
  {
    SubstringOfConcat(pre, JsonMedia, post);
  }

  /** With no JSON in `Accept`, REST is selected exactly when `Content-Type` is
      exactly the JSON media type. */
  lemma ContentTypeExactMatch(accept: string, contentType: string, path: string)
    requires !IsSubstring(JsonMedia, accept)
    ensures Decide(accept, contentType, path).target == REST <==> contentType == JsonMedia
  {
  }

  /** A JSON `Content-Type` carrying parameters does not by itself select REST:
      with no `Accept` header and a path outside the GraphQL prefix, nothing is rewritten. */
  lemma CharsetContentTypeIsNotJson(path: string)
    requires !IsPrefix(GraphQLPath, path)
    ensures Decide("", "application/json; charset=utf-8", path) == Decision(Unresolved, path)
  {
  }

  /** Any JSON signal beats a path under the GraphQL prefix. */
  lemma JsonBeatsGraphQL(accept: string, contentType: string, path: string)
    requires JsonSignal(accept, contentType)
    ensures Decide(accept, contentType, path) == Decision(REST, RestPath)
  {
  }

  /** Without a JSON signal, a GraphQL signal beats an HTML `Accept`. */
  lemma GraphQLBeatsHtml(accept: string, contentType: string, path: string)
    requires !JsonSignal(accept, contentType) && GraphQLSignal(accept, path)
    ensures Decide(accept, contentType, path) == Decision(GraphQL, GraphQLPath)
  {
  }

  /** `Accept: text/html` on a path under the GraphQL prefix goes to GraphQL. */
  lemma HtmlAcceptOnGraphQLPath(path: string)
    requires IsPrefix(GraphQLPath, path)
    ensures Decide(HtmlMedia, "", path) == Decision(GraphQL, GraphQLPath)
  {
  }

  /** `Accept: text/html` with no other signal goes to the HTML page. */
  lemma HtmlSelectedWithoutOtherSignals(accept: string, contentType: string, path: string)
    requires !JsonSignal(accept, contentType) && !GraphQLSignal(accept, path) && HtmlSignal(accept)
    ensures Decide(accept, contentType, path) == Decision(HTML, HtmlPath)
  {
  }

  /** With neither header, any path under the GraphQL prefix is normalised to
      exactly the GraphQL route: `/graphql/x` becomes `/graphql`. */
  lemma GraphQLPrefixNormalised(rest: string)
    ensures Decide("", "", GraphQLPath + rest) == Decision(GraphQL, GraphQLPath)
  {
  }

  /** When no rule matches, the path is left exactly as it was. */
  lemma FallbackKeepsPath(accept: string, contentType: string, path: string)
    requires !JsonSignal(accept, contentType) && !GraphQLSignal(accept, path) && !HtmlSignal(accept)
    ensures Decide(accept, contentType, path) == Decision(Unresolved, path)
  {
  }

  /** A request with neither header and a path outside the GraphQL prefix is not rewritten. */
  lemma MissingHeadersLeavePathAlone(headers: map<string, string>, path: string)
    requires "Accept" !in headers && "Content-Type" !in headers
    requires !IsPrefix(GraphQLPath, path)
    ensures DecideRequest(headers, path) == Decision(Unresolved, path)
  {
  }

  /** The rewritten path is one of the three routes or the original path. */
  lemma RewrittenPathIsRouteOrOriginal(accept: string, contentType: string, path: string)
    ensures Decide(accept, contentType, path).path in {RestPath, GraphQLPath, HtmlPath, path}
  {
  }

  /** Deciding again on the rewritten path, with the same headers, changes nothing. */
  lemma Idempotent(accept: string, contentType: string, path: string)
    ensures var d := Decide(accept, contentType, path);
            Decide(accept, contentType, d.path) == d
  {
  }
}
