/**
 * `RestApiClient`: a fluent wrapper that keeps one request for its whole
 * lifetime. The chainable calls each add to that request and return the
 * client itself; the verb calls fix the method and resource, optionally add a
 * JSON body, and hand the request to the transport.
 */
module Client {
  import opened Requests
  import opened CookieAuth

  class RestApiClient {
    /** The base address the underlying `RestClient` was created with. */
    const baseUrl: string
    /** The single request every call of this client accumulates into. */
    const request: RestRequest

    constructor (baseUrl: string)
      ensures this.baseUrl == baseUrl
      ensures fresh(request)
      ensures request.Snapshot() == Request(None, None, [], None)
    {
      this.baseUrl := baseUrl;
      request := new RestRequest();
    }

    method AddQueryParameter(name: string, value: string) returns (self: RestApiClient)
      modifies request
      ensures self == this
      ensures request.Snapshot() == old(request.Snapshot()).(params := old(request.params) + [Query(name, value)])
    {
      request.AddQueryParameter(name, value);
      self := this;
    }

    method AddUrlSegment(name: string, value: string) returns (self: RestApiClient)
      modifies request
      ensures self == this
      ensures request.Snapshot() == old(request.Snapshot()).(params := old(request.params) + [UrlSegment(name, value)])
    {
      request.AddUrlSegment(name, value);
      self := this;
    }

    method AddJsonBody(body: Body) returns (self: RestApiClient)
      modifies request
      ensures self == this
      ensures request.Snapshot() == old(request.Snapshot()).(params := old(request.params) + [JsonBody(body)])
    {
      request.AddJsonBody(body);
      self := this;
    }

    /** Replaces the authenticator (the last call wins); the parameter log is untouched. */
    method WithBasicAuthentication(authenticator: Authenticator) returns (self: RestApiClient)
      modifies request
      ensures self == this
      ensures request.Snapshot() == old(request.Snapshot()).(authenticator := Some(authenticator))
    {
      request.authenticator := Some(authenticator);
      self := this;
    }

    /**
     * Adds exactly one cookie: a copy of the last cookie of the collection
     * named `neededCookieName`, or an all-empty cookie when none is.
     */
    method WithCookieAuth(cookieCollection: seq<Cookie>, neededCookieName: string) returns (self: RestApiClient)
      modifies request
      ensures self == this
      ensures var chosen := SelectLast(cookieCollection, neededCookieName);
        request.Snapshot() == old(request.Snapshot()).(params := old(request.params) + [
          if chosen.None? then CookieParam("", "", "", "")
          else CookieParam(chosen.value.name, chosen.value.value, chosen.value.path, chosen.value.domain)])
    {
      var matches := Matching(cookieCollection, neededCookieName);
      var cook: Option<Cookie> := None;
      for i := 0 to |matches|
        invariant cook == if i == 0 then None else Some(matches[i - 1])
      {
        cook := Some(matches[i]);
      }
      LastOfMatchingIsSelectLast(cookieCollection, neededCookieName);
      if cook.None? {
        request.AddCookie("", "", "", "");
      } else {
        request.AddCookie(cook.value.name, cook.value.value, cook.value.path, cook.value.domain);
      }
      self := this;
    }

    method AddHeader(name: string, value: string) returns (self: RestApiClient)
      modifies request
      ensures self == this
      ensures request.Snapshot() == old(request.Snapshot()).(params := old(request.params) + [Header(name, value)])
    {
      request.AddHeader(name, value);
      self := this;
    }

    method Get(resource: string, payload: Option<string>) returns (dispatched: Request)
      modifies request
      ensures request.httpMethod == Some(Method.Get) && request.resource == Some(resource)
      ensures request.authenticator == old(request.authenticator)
      ensures payload.Some? ==> request.params == old(request.params) + [JsonBody(JsonString(payload.value))]
      ensures payload.None? ==> request.params == old(request.params)
      ensures dispatched == request.Snapshot()
    {
      request.httpMethod := Some(Method.Get);
      request.resource := Some(resource);
      if payload.Some? {
        request.AddJsonBody(JsonString(payload.value));
      }
      dispatched := ExecuteApi();
    }

    method Post(resource: string, payload: Option<string>) returns (dispatched: Request)
      modifies request
      ensures request.httpMethod == Some(Method.Post) && request.resource == Some(resource)
      ensures request.authenticator == old(request.authenticator)
      ensures payload.Some? ==> request.params == old(request.params) + [JsonBody(JsonString(payload.value))]
      ensures payload.None? ==> request.params == old(request.params)
      ensures dispatched == request.Snapshot()
    {
      request.httpMethod := Some(Method.Post);
      request.resource := Some(resource);
      if payload.Some? {
        request.AddJsonBody(JsonString(payload.value));
      }
      dispatched := ExecuteApi();
    }

    method Put(resource: string, payload: Option<string>) returns (dispatched: Request)
      modifies request
      ensures request.httpMethod == Some(Method.Put) && request.resource == Some(resource)
      ensures request.authenticator == old(request.authenticator)
      ensures payload.Some? ==> request.params == old(request.params) + [JsonBody(JsonString(payload.value))]
      ensures payload.None? ==> request.params == old(request.params)
      ensures dispatched == request.Snapshot()
    {
      request.httpMethod := Some(Method.Put);
      request.resource := Some(resource);
      if payload.Some? {
        request.AddJsonBody(JsonString(payload.value));
      }
      dispatched := ExecuteApi();
    }

    method Patch(resource: string, payload: Option<string>) returns (dispatched: Request)
      modifies request
      ensures request.httpMethod == Some(Method.Patch) && request.resource == Some(resource)
      ensures request.authenticator == old(request.authenticator)
      ensures payload.Some? ==> request.params == old(request.params) + [JsonBody(JsonString(payload.value))]
      ensures payload.None? ==> request.params == old(request.params)
      ensures dispatched == request.Snapshot()
    {
      request.httpMethod := Some(Method.Patch);
      request.resource := Some(resource);
      if payload.Some? {
        request.AddJsonBody(JsonString(payload.value));
      }
      dispatched := ExecuteApi();
    }

    method Delete(resource: string, payload: Option<string>) returns (dispatched: Request)
      modifies request
      ensures request.httpMethod == Some(Method.Delete) && request.resource == Some(resource)
      ensures request.authenticator == old(request.authenticator)
      ensures payload.Some? ==> request.params == old(request.params) + [JsonBody(JsonString(payload.value))]
      ensures payload.None? ==> request.params == old(request.params)
      ensures dispatched == request.Snapshot()
    {
      request.httpMethod := Some(Method.Delete);
      request.resource := Some(resource);
      if payload.Some? {
        request.AddJsonBody(JsonString(payload.value));
      }
      dispatched := ExecuteApi();
    }

    /**
     * The hand-off to the transport. The network call and the typed response
     * are outside the model; what is observable here is the request, exactly
     * as accumulated, that the transport receives. The transport is assumed
     * to leave that request as it found it.
     */
    method ExecuteApi() returns (dispatched: Request)
      ensures dispatched == request.Snapshot()
    {
      dispatched := request.Snapshot();
    }
  }
}
