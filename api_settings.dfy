/**
 * `ApiSettings`: the same accumulate-into-one-request pattern as
 * `RestApiClient`, except that method and resource are fixed when the object
 * is created (by the static factories) and `Build` hands the request out.
 */
module Settings {
  import opened Requests

  class ApiSettings {
    /** The base address the underlying `RestClient` was created with. */
    const baseUrl: string
    /** The single request the builder calls accumulate into. */
    const request: RestRequest

    /** The fallback base address used when none is supplied. */
    static function GetBaseUrl(): (r: string)
      ensures |r| == 0
    {
      ""
    }

    /** `baseUrl ?? GetBaseUrl()`: a supplied address verbatim, otherwise the fallback. */
    static function ResolveBaseUrl(baseUrl: Option<string>): (r: string)
      ensures baseUrl.Some? ==> r == baseUrl.value
      ensures baseUrl.None? ==> r == ""
    {
      match baseUrl
      case Some(url) => url
      case None => GetBaseUrl()
    }

    constructor (resource: string, httpMethod: Method, baseUrl: Option<string>)
      ensures this.baseUrl == ResolveBaseUrl(baseUrl)
      ensures fresh(request)
      ensures request.Snapshot() == Request(Some(httpMethod), Some(resource), [], None)
    {
      this.baseUrl := ResolveBaseUrl(baseUrl);
      request := new RestRequest.WithTarget(resource, httpMethod);
    }

    constructor FromBaseUrl(baseUrl: Option<string>)
      ensures this.baseUrl == ResolveBaseUrl(baseUrl)
      ensures fresh(request)
      ensures request.Snapshot() == Request(None, None, [], None)
    {
      this.baseUrl := ResolveBaseUrl(baseUrl);
      request := new RestRequest();
    }

    method AddQueryParameter(name: string, value: string) returns (self: ApiSettings)
      modifies request
      ensures self == this
      ensures request.Snapshot() == old(request.Snapshot()).(params := old(request.params) + [Query(name, value)])
    {
      request.AddQueryParameter(name, value);
      self := this;
    }

    method AddUrlSegment(name: string, value: string) returns (self: ApiSettings)
      modifies request
      ensures self == this
      ensures request.Snapshot() == old(request.Snapshot()).(params := old(request.params) + [UrlSegment(name, value)])
    {
      request.AddUrlSegment(name, value);
      self := this;
    }

    method AddJsonBody(body: Body) returns (self: ApiSettings)
      modifies request
      ensures self == this
      ensures request.Snapshot() == old(request.Snapshot()).(params := old(request.params) + [JsonBody(body)])
    {
      request.AddJsonBody(body);
      self := this;
    }

    method AddHeader(name: string, value: string) returns (self: ApiSettings)
      modifies request
      ensures self == this
      ensures request.Snapshot() == old(request.Snapshot()).(params := old(request.params) + [Header(name, value)])
    {
      request.AddHeader(name, value);
      self := this;
    }

    /**
     * Hands out the accumulated request itself, not a copy: later builder
     * calls remain visible through the returned reference. Being a function,
     * it changes nothing, so two calls return the same object.
     */
    function Build(): (built: RestRequest)
      ensures built == request
    {
      request
    }

    static method Get(resource: string, baseUrl: Option<string>) returns (settings: ApiSettings)
      ensures fresh(settings) && fresh(settings.request)
      ensures settings.baseUrl == ResolveBaseUrl(baseUrl)
      ensures settings.request.Snapshot() == Request(Some(Method.Get), Some(resource), [], None)
    {
      settings := new ApiSettings(resource, Method.Get, baseUrl);
    }

    static method Post(resource: string, baseUrl: Option<string>) returns (settings: ApiSettings)
      ensures fresh(settings) && fresh(settings.request)
      ensures settings.baseUrl == ResolveBaseUrl(baseUrl)
      ensures settings.request.Snapshot() == Request(Some(Method.Post), Some(resource), [], None)
    {
      settings := new ApiSettings(resource, Method.Post, baseUrl);
    }

    static method Put(resource: string, baseUrl: Option<string>) returns (settings: ApiSettings)
      ensures fresh(settings) && fresh(settings.request)
      ensures settings.baseUrl == ResolveBaseUrl(baseUrl)
      ensures settings.request.Snapshot() == Request(Some(Method.Put), Some(resource), [], None)
    {
      settings := new ApiSettings(resource, Method.Put, baseUrl);
    }

    static method Patch(resource: string, baseUrl: Option<string>) returns (settings: ApiSettings)
      ensures fresh(settings) && fresh(settings.request)
      ensures settings.baseUrl == ResolveBaseUrl(baseUrl)
      ensures settings.request.Snapshot() == Request(Some(Method.Patch), Some(resource), [], None)
    {
      settings := new ApiSettings(resource, Method.Patch, baseUrl);
    }

    static method Delete(resource: string, baseUrl: Option<string>) returns (settings: ApiSettings)
      ensures fresh(settings) && fresh(settings.request)
      ensures settings.baseUrl == ResolveBaseUrl(baseUrl)
      ensures settings.request.Snapshot() == Request(Some(Method.Delete), Some(resource), [], None)
    {
      settings := new ApiSettings(resource, Method.Delete, baseUrl);
    }
  }
}
