/**
 * The part of RestSharp's request object that the two builders touch.
 *
 * RestSharp's own treatment of repeated parameters is not visible to this
 * code, so every `Add*` call is modelled as appending one entry to an
 * ordered parameter log; nothing is ever overwritten or rejected.
 */
module Requests {

  datatype Option<+T> = None | Some(value: T)

  /** RestSharp's `Method` enumeration, restricted to the verbs the builders use. */
  datatype Method = Get | Post | Put | Patch | Delete

  /**
   * A JSON body: either a string the caller already serialised (what the
   * verb methods pass on) or an arbitrary object, represented here by an
   * opaque textual stand-in for its identity.
   */
  datatype Body = JsonString(text: string) | JsonObject(repr: string)

  /** One entry of the request's parameter log. */
  datatype Param =
    | Query(name: string, value: string)
    | UrlSegment(name: string, value: string)
    | Header(name: string, value: string)
    | JsonBody(body: Body)
    | CookieParam(name: string, value: string, path: string, domain: string)

  /** `HttpBasicAuthenticator`, the only authenticator the builders install. */
  datatype Authenticator = Basic(username: string, password: string)

  /**
   * The value of a request at one moment. `None` for the method or the
   * resource means "never set by this code".
   */
  datatype Request = Request(
    httpMethod: Option<Method>,
    resource: Option<string>,
    params: seq<Param>,
    authenticator: Option<Authenticator>)

  /** The mutable `RestRequest` object that a builder holds for its whole lifetime. */
  class RestRequest {
    var httpMethod: Option<Method>
    var resource: Option<string>
    var params: seq<Param>
    var authenticator: Option<Authenticator>

    /** The whole state of the object as a value. */
    function Snapshot(): Request
      reads this
    {
      Request(httpMethod, resource, params, authenticator)
    }

    /** `new RestRequest()`: nothing set, no parameters. */
    constructor ()
      ensures Snapshot() == Request(None, None, [], None)
    {
      httpMethod, resource, params, authenticator := None, None, [], None;
    }

    /** `new RestRequest(resource, method)`. */
    constructor WithTarget(resource: string, httpMethod: Method)
      ensures Snapshot() == Request(Some(httpMethod), Some(resource), [], None)
    {
      this.httpMethod, this.resource := Some(httpMethod), Some(resource);
      params, authenticator := [], None;
    }

    /** Appends one entry to the log; method, resource and authenticator stay as they were. */
    method Append(p: Param)
      modifies this
      ensures Snapshot() == old(Snapshot()).(params := old(params) + [p])
    {
      params := params + [p];
    }

    method AddQueryParameter(name: string, value: string)
      modifies this
      ensures Snapshot() == old(Snapshot()).(params := old(params) + [Query(name, value)])
    {
      Append(Query(name, value));
    }

    method AddUrlSegment(name: string, value: string)
      modifies this
      ensures Snapshot() == old(Snapshot()).(params := old(params) + [UrlSegment(name, value)])
    {
      Append(UrlSegment(name, value));
    }

    method AddHeader(name: string, value: string)
      modifies this
      ensures Snapshot() == old(Snapshot()).(params := old(params) + [Header(name, value)])
    {
      Append(Header(name, value));
    }

    method AddJsonBody(body: Body)
      modifies this
      ensures Snapshot() == old(Snapshot()).(params := old(params) + [JsonBody(body)])
    {
      Append(JsonBody(body));
    }

    method AddCookie(name: string, value: string, path: string, domain: string)
      modifies this
      ensures Snapshot() == old(Snapshot()).(params := old(params) + [CookieParam(name, value, path, domain)])
    {
      Append(CookieParam(name, value, path, domain));
    }
  }
}
