/**
 * Call sequences on the two builders: three taken from the test suite
 * (`UsersPage`, `UserById`, `CreateUser`), a few more that exercise the
 * authentication and settings calls, and two over any sequence of builder
 * calls. Each states in full the request dispatched to the transport or
 * handed out by `Build`, and so shows that everything chained before the
 * final call is still present, in order, because each builder reuses its one
 * request.
 */
module Scenarios {
  import opened Requests
  import opened CookieAuth
  import opened Client
  import opened Settings

  /** `AddQueryParameter("page", page).Get("api/users")`. */
  method UsersPage(baseUrl: string, page: string) returns (dispatched: Request)
    ensures dispatched == Request(Some(Method.Get), Some("api/users"), [Query("page", page)], None)
  {
    var client := new RestApiClient(baseUrl);
    var chained := client.AddQueryParameter("page", page);
    dispatched := chained.Get("api/users", None);
  }

  /** `AddUrlSegment("id", id).Get("api/users/{id}")`. */
  method UserById(baseUrl: string, id: string) returns (dispatched: Request)
    ensures dispatched == Request(Some(Method.Get), Some("api/users/{id}"), [UrlSegment("id", id)], None)
  {
    var client := new RestApiClient(baseUrl);
    var chained := client.AddUrlSegment("id", id);
    dispatched := chained.Get("api/users/{id}", None);
  }

  /** `Post("api/users", jsonPayload)` on a fresh client: the payload is the only entry. */
  method CreateUser(baseUrl: string, jsonPayload: string) returns (dispatched: Request)
    ensures dispatched == Request(Some(Method.Post), Some("api/users"), [JsonBody(JsonString(jsonPayload))], None)
  {
    var client := new RestApiClient(baseUrl);
    dispatched := client.Post("api/users", Some(jsonPayload));
  }

  /**
   * Cookie and basic authentication chained before a verb: the cookie named
   * `A` with value `3` (the last of two) is the one sent, and the second
   * authenticator replaces the first.
   */
  method AuthenticatedDelete(baseUrl: string, first: Authenticator, second: Authenticator) returns (dispatched: Request)
    ensures dispatched == Request(Some(Method.Delete), Some("api/users/2"),
      [CookieParam("A", "3", "/api", "reqres.in")], Some(second))
  {
    var cookies := [Cookie("A", "1", "/", "reqres.in"), Cookie("B", "2", "/", "reqres.in"), Cookie("A", "3", "/api", "reqres.in")];
    LastMatchWinsExample("reqres.in");
    var client := new RestApiClient(baseUrl);
    var c1 := client.WithBasicAuthentication(first);
    var c2 := c1.WithCookieAuth(cookies, "A");
    var c3 := c2.WithBasicAuthentication(second);
    dispatched := c3.Delete("api/users/2", None);
  }

  /** With no cookie of the requested name, the single cookie sent is all-empty. */
  method MissingCookie(baseUrl: string, cookies: seq<Cookie>, name: string) returns (dispatched: Request)
    requires forall i :: 0 <= i < |cookies| ==> cookies[i].name != name
    ensures dispatched == Request(Some(Method.Get), Some("api/users"), [CookieParam("", "", "", "")], None)
  {
    SelectLastNoneIff(cookies, name);
    var client := new RestApiClient(baseUrl);
    var chained := client.WithCookieAuth(cookies, name);
    dispatched := chained.Get("api/users", None);
  }

  /** A settings chain: the built request carries the factory's target and the entries in call order. */
  method SettingsChain(baseUrl: string, id: string, token: string) returns (built: Request)
    ensures built == Request(Some(Method.Put), Some("api/users/{id}"),
      [UrlSegment("id", id), Header("Authorization", token), JsonBody(JsonObject("user"))], None)
  {
    var settings := ApiSettings.Put("api/users/{id}", Some(baseUrl));
    var s1 := settings.AddUrlSegment("id", id);
    var s2 := s1.AddHeader("Authorization", token);
    var s3 := s2.AddJsonBody(JsonObject("user"));
    var request := s3.Build();
    built := request.Snapshot();
  }

  /** The entries a chain of the plain builder calls can add: anything but a cookie. */
  predicate BuilderEntries(entries: seq<Param>)
  {
    forall k :: 0 <= k < |entries| ==> !entries[k].CookieParam?
  }

  /**
   * Any chain of `AddQueryParameter`, `AddUrlSegment`, `AddHeader` and
   * `AddJsonBody` calls on a new settings object, one call per entry, then
   * `Build`: the built request holds every entry, in call order, under the
   * method and resource fixed at construction.
   */
  method BuildAfterCalls(resource: string, httpMethod: Method, baseUrl: string, entries: seq<Param>) returns (built: Request)
    requires BuilderEntries(entries)
    ensures built == Request(Some(httpMethod), Some(resource), entries, None)
  {
    var settings := new ApiSettings(resource, httpMethod, Some(baseUrl));
    for i := 0 to |entries|
      invariant fresh(settings.request)
      invariant settings.request.Snapshot() == Request(Some(httpMethod), Some(resource), entries[..i], None)
    {
      assert entries[..i + 1] == entries[..i] + [entries[i]];
      match entries[i]
      case Query(name, value) => settings := settings.AddQueryParameter(name, value);
      case UrlSegment(name, value) => settings := settings.AddUrlSegment(name, value);
      case Header(name, value) => settings := settings.AddHeader(name, value);
      case JsonBody(body) => settings := settings.AddJsonBody(body);
    }
    assert entries[..|entries|] == entries;
    built := settings.Build().Snapshot();
  }

  /**
   * Any chain of the plain builder calls on a new client, one call per entry,
   * then `Get`: the transport receives every chained entry, in call order,
   * followed by the payload's body when a payload is given.
   */
  method SendAfterCalls(baseUrl: string, entries: seq<Param>, resource: string, payload: Option<string>)
    returns (dispatched: Request)
    requires BuilderEntries(entries)
    ensures dispatched == Request(Some(Method.Get), Some(resource),
      entries + (if payload.Some? then [JsonBody(JsonString(payload.value))] else []), None)
  {
    var client := new RestApiClient(baseUrl);
    for i := 0 to |entries|
      invariant fresh(client.request)
      invariant client.request.Snapshot() == Request(None, None, entries[..i], None)
    {
      assert entries[..i + 1] == entries[..i] + [entries[i]];
      match entries[i]
      case Query(name, value) => client := client.AddQueryParameter(name, value);
      case UrlSegment(name, value) => client := client.AddUrlSegment(name, value);
      case Header(name, value) => client := client.AddHeader(name, value);
      case JsonBody(body) => client := client.AddJsonBody(body);
    }
    assert entries[..|entries|] == entries;
    dispatched := client.Get(resource, payload);
  }
}
