/** The middleware that rewrites each request's path in place before handing it on. */
module Middleware {
  import opened Text
  import opened Negotiation
  import opened Routing

  /** An inbound request: its method and headers are fixed, its path may be rewritten. */
  class Request {
    const verb: string
    const headers: map<string, string>
    var path: string

    constructor (verb: string, headers: map<string, string>, path: string)
      ensures this.verb == verb && this.headers == headers && this.path == path
    {
      this.verb := verb;
      this.headers := headers;
      this.path := path;
    }

    /** Rewrites `path` by the first matching rule, then hands the request to the
        next stage and returns its response untouched. */
    method Dispatch<R>(callNext: (string, map<string, string>, string) -> R) returns (response: R)
      modifies this
      ensures path == Decide(Header(headers, "Accept"), Header(headers, "Content-Type"), old(path)).path
      ensures response == callNext(verb, headers, path)
    {
      var accept := Header(headers, "Accept");
      var contentType := Header(headers, "Content-Type");
      if Contains(accept, JsonMedia) || contentType == JsonMedia {
        path := RestPath;
      } else if Contains(accept, GraphQLMedia) || StartsWith(path, GraphQLPath) {
        path := GraphQLPath;
      } else if Contains(accept, HtmlMedia) {
        path := HtmlPath;
      }
      response := callNext(verb, headers, path);
    }
  }

  /** One request through the middleware and then the route table. */
  method HandleRequest(verb: string, headers: map<string, string>, path: string)
    returns (response: Response)
    ensures response == Serve(Route(DecideRequest(headers, path).path), verb)
    ensures IsSubstring(JsonMedia, Header(headers, "Accept")) ==>
              response == if verb == Get then JsonDeals(Deals.Store) else MethodNotAllowed
    ensures DecideRequest(headers, path).target == Unresolved ==> response == Serve(Route(path), verb)
  {
    var request := new Request(verb, headers, path);
    response := request.Dispatch((m: string, h: map<string, string>, p: string) => Serve(Route(p), m));
  }
}
