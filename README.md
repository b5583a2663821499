# Fluent REST request builders: a Dafny model

This project models the request-building core of a small C# helper library
over RestSharp. It has two builders, `RestApiClient` and `ApiSettings`. Each
keeps one mutable `RestRequest` for its whole lifetime. Its chainable calls
add parameters to that request and return the builder itself.

- `RestApiClient` also installs authenticators. Its `WithCookieAuth` copies
  the **last** cookie of a collection whose name equals the requested name. If
  no cookie has that name, it adds an all-empty cookie. Its verb calls
  (`Get`, `Post`, `Put`, `Patch`, `Delete`) overwrite the method and the
  resource. They add a JSON body only when a payload is given, then hand the
  request to the transport.
- `ApiSettings` fixes method and resource at construction, through static
  factories. A missing base URL falls back to `""`. `Build` hands out the
  accumulated request object itself.

Files and modules:

- `requests.dfy` (`Requests`): the request state. `Request` is the value of
  a request: method, resource, parameter log, authenticator.
  `RestRequest` is the mutable object whose fields the builders update;
  `Snapshot()` reads its state as a `Request`.
- `cookie_auth.dfy` (`CookieAuth`): the cookie tie-break. `SelectLast` is the
  reference definition. `Matching` is the `Where` filter the loop iterates
  over. The lemmas characterise the choice by index, in both directions.
- `rest_api_client.dfy` (`Client`): class `RestApiClient`.
- `api_settings.dfy` (`Settings`): class `ApiSettings`.
- `scenarios.dfy` (`Scenarios`): three call chains taken from the test
  suite, plus illustrative chains and chains over any sequence of builder
  calls. Each states the whole request that is dispatched or built.

Modelling decisions:

- RestSharp decides itself what happens to repeated parameters, and that code
  is not part of this model. So every `Add*` call appends one entry to an
  ordered log. The model never claims that an entry is overwritten or
  rejected.
- A method or resource this code never set is `None`. RestSharp's own default
  values are not claimed.
- The builders' `request` fields are `readonly` references to objects that
  change in place. They are `const` fields of type `RestRequest` here, and the
  builder methods `modify` that object. `Build` returns the same reference.
- A C# `null` is modelled as `None` only where the code branches on it: the
  `baseUrl` of `ApiSettings` and the `payload` of the verb calls.
- `AddJsonBody(object)` takes an arbitrary object, so both builders'
  `AddJsonBody` accept any `Body`. `JsonObject(repr)` stands for an object,
  with `repr` an opaque stand-in for it; `JsonString(text)` stands for a
  string that is already JSON. The verb calls always pass a `JsonString`.
- A `CookieCollection` is a sequence in enumeration order. Names are compared
  with exact (ordinal) string equality, as `==` on C# strings does.

What the code does not do:

- `WithCookieAuth` does not install an authenticator. It calls
  `request.AddCookie` once per call. Whether a repeated call with the same
  arguments leaves the request as it was is decided inside RestSharp; the
  model appends one log entry per call.
- The code validates no parameter names and no `{name}` placeholders. It has
  no execute variant that checks the status code, and it defines no disposal
  of the client. None of these are modelled.

## Model

| member | source | states |
|---|---|---|
| `CookieAuth.SelectLast` | API_Helper/RestApiClient.cs:45-49 | a chosen cookie is an element of the collection and carries exactly the requested name |
| `CookieAuth.Matching` | API_Helper/RestApiClient.cs:46 | every element of the filtered sequence is a cookie of the collection with the requested name, every matching cookie occurs in it, and it is no longer than the collection |
| `CookieAuth.LastOfMatchingIsSelectLast` | API_Helper/RestApiClient.cs:45-49 | iterating over the filtered cookies and keeping the latest one yields the last matching cookie, or nothing when the filter is empty |
| `CookieAuth.SelectLastNoneIff` | API_Helper/RestApiClient.cs:45-51 | `cook` stays null if and only if no cookie of the collection has the requested name |
| `CookieAuth.SelectLastAt` | API_Helper/RestApiClient.cs:45-49 | a cookie that matches, with no later match, is the one chosen (last match wins) |
| `CookieAuth.SelectLastSome` | API_Helper/RestApiClient.cs:45-49 | whatever is chosen sits at an index that matches and has no later match |
| `CookieAuth.LastMatchWinsExample` | API_Helper/RestApiClient.cs:45-49 | given cookies `(A,1),(B,2),(A,3)` and name `A`, the cookie with value `3` is chosen |
| `Client.RestApiClient.constructor` | API_Helper/RestApiClient.cs:13-17 | the client keeps the base URL and a fresh request with nothing set and no parameters |
| `Client.RestApiClient.AddQueryParameter` | API_Helper/RestApiClient.cs:19-23 | appends exactly one query entry with the given name and value; method, resource, authenticator and earlier entries unchanged; returns the same client |
| `Client.RestApiClient.AddUrlSegment` | API_Helper/RestApiClient.cs:25-29 | appends exactly one URL-segment entry; nothing else changes; returns the same client |
| `Client.RestApiClient.AddJsonBody` | API_Helper/RestApiClient.cs:31-35 | appends exactly one JSON-body entry carrying the given body; nothing else changes; returns the same client |
| `Client.RestApiClient.WithBasicAuthentication` | API_Helper/RestApiClient.cs:37-41 | replaces the authenticator with the given one (the last call wins); parameter log, method and resource unchanged |
| `Client.RestApiClient.WithCookieAuth` | API_Helper/RestApiClient.cs:43-61 | appends exactly one cookie: the name, value, path and domain of the last cookie named as requested, or four empty strings when none is; nothing else changes; returns the same client |
| `Client.RestApiClient.AddHeader` | API_Helper/RestApiClient.cs:63-67 | appends exactly one header entry; nothing else changes; returns the same client |
| `Client.RestApiClient.Get` | API_Helper/RestApiClient.cs:81-91 | sets the method to GET and the resource to the argument, overwriting earlier values; appends a JSON body if and only if a payload is given; keeps the authenticator and the earlier entries; the transport receives exactly this request |
| `Client.RestApiClient.Post` | API_Helper/RestApiClient.cs:93-103 | as `Get`, with method POST |
| `Client.RestApiClient.Put` | API_Helper/RestApiClient.cs:105-115 | as `Get`, with method PUT |
| `Client.RestApiClient.Patch` | API_Helper/RestApiClient.cs:117-127 | as `Get`, with method PATCH |
| `Client.RestApiClient.Delete` | API_Helper/RestApiClient.cs:129-139 | as `Get`, with method DELETE |
| `Settings.ApiSettings.GetBaseUrl` | API_Helper/ApiSettings.cs:11-15 | the fallback base URL is the empty string |
| `Settings.ApiSettings.ResolveBaseUrl` | API_Helper/ApiSettings.cs:19 | a given base URL is kept verbatim; a missing one becomes `""` |
| `Settings.ApiSettings.constructor` | API_Helper/ApiSettings.cs:17-22 | stores the resolved base URL and a fresh request with the given method and resource and no parameters |
| `Settings.ApiSettings.FromBaseUrl` | API_Helper/ApiSettings.cs:24-29 | stores the resolved base URL; the fresh request has no method, no resource and no parameters |
| `Settings.ApiSettings.AddQueryParameter` | API_Helper/ApiSettings.cs:31-35 | appends exactly one query entry; nothing else changes; returns the same object |
| `Settings.ApiSettings.AddUrlSegment` | API_Helper/ApiSettings.cs:37-41 | appends exactly one URL-segment entry; nothing else changes; returns the same object |
| `Settings.ApiSettings.AddJsonBody` | API_Helper/ApiSettings.cs:43-47 | appends exactly one JSON-body entry; nothing else changes; returns the same object |
| `Settings.ApiSettings.AddHeader` | API_Helper/ApiSettings.cs:49-53 | appends exactly one header entry; nothing else changes; returns the same object |
| `Settings.ApiSettings.Get` | API_Helper/ApiSettings.cs:69-72 | a new settings object whose request has method GET, the given resource and an empty parameter log, and whose base URL is resolved as in the constructor |
| `Settings.ApiSettings.Post` | API_Helper/ApiSettings.cs:74-77 | as `Get`, with method POST |
| `Settings.ApiSettings.Put` | API_Helper/ApiSettings.cs:79-82 | as `Get`, with method PUT |
| `Settings.ApiSettings.Patch` | API_Helper/ApiSettings.cs:84-87 | as `Get`, with method PATCH |
| `Settings.ApiSettings.Delete` | API_Helper/ApiSettings.cs:89-92 | as `Get`, with method DELETE |
| `Scenarios.UsersPage` | API_Testing_Restsharp/Tests/UsersApiTest.cs:33-38 | a query parameter chained before `Get` is still in the request the transport receives, with method GET and resource `api/users` |
| `Scenarios.UserById` | API_Testing_Restsharp/Tests/UsersApiTest.cs:83-88 | a URL segment chained before `Get` reaches the transport with the templated resource |
| `Scenarios.CreateUser` | API_Testing_Restsharp/Tests/UsersApiTest.cs:138-142 | `Post` with a payload sends exactly one JSON-body entry carrying that payload |
| `Scenarios.AuthenticatedDelete` | API_Helper/RestApiClient.cs:37-139 | in a chain, the last of two same-named cookies is sent and the second basic authenticator replaces the first |
| `Scenarios.MissingCookie` | API_Helper/RestApiClient.cs:51-54 | with no cookie of the requested name, the only cookie sent is all-empty |
| `Scenarios.SettingsChain` | API_Helper/ApiSettings.cs:31-55 | `Build` after a factory and three builder calls yields the factory's method and resource and the three entries in call order |
| `Scenarios.BuildAfterCalls` | API_Helper/ApiSettings.cs:31-55 | for any sequence of `AddQueryParameter`, `AddUrlSegment`, `AddHeader` and `AddJsonBody` calls, `Build` returns a request holding exactly those entries in call order, with the method and resource fixed at construction and no authenticator |
| `Scenarios.SendAfterCalls` | API_Helper/RestApiClient.cs:19-91 | for any sequence of plain builder calls followed by `Get`, the transport receives exactly those entries in call order, then the payload's body when one is given, with method GET and the given resource |

## Left out

- `Execute` and `Execute<T>` of both classes. They run the request through
  RestSharp's HTTP client and deserialiser, which are not part of this model.
  The verb calls' hand-off (`ExecuteApi`, a helper here) is modelled only as
  the request the transport receives, not as a response.
- RestSharp's handling of duplicate query parameters and headers, and of a
  second JSON body. That code is not part of this model, so no overwrite or
  rejection is claimed. Each call is one more log entry.
- `Client.RestApiClient.Get` and the other verb calls return the dispatched
  request instead of the typed `RestResponse<T>`. Status codes, success flags
  and deserialised data come from the remote service.
- Client.RestApiClient.Get, Client.RestApiClient.Post,
  Client.RestApiClient.Put, Client.RestApiClient.Patch,
  Client.RestApiClient.Delete and Client.RestApiClient.ExecuteApi: the model
  assumes the transport leaves the request as it found it. RestSharp's
  `Execute` may change the request it runs: an installed authenticator may add
  or update an `Authorization` header, and response cookies may be stored in
  the request's cookie container. So the state after a verb call, and what a
  second verb call on the same client sends, is stated only under that
  assumption.
- The `RestClient` object is reduced to the base URL it was created with.
  Its connection and (undefined here) disposal are not modelled.
- Settings.ApiSettings.constructor, Settings.ApiSettings.FromBaseUrl and the
  factories `Settings.ApiSettings.Get`, `Post`, `Put`, `Patch` and `Delete`:
  the model does not capture RestSharp or .NET rejecting an empty base URL.
  With no base URL given, the fallback `""` is passed to `new RestClient`,
  which most likely throws while parsing it as a URI. The model stores `""`
  and succeeds. Nor does the model capture RestSharp's
  `new RestRequest(resource, method)` splitting a query string in the
  resource (as in `api/users?page=1`) off into query parameters: the model
  keeps the resource verbatim with an empty parameter log.
- Client.RestApiClient.constructor: likewise, an empty or malformed base URL
  rejected by `new RestClient` is not captured.
- Client.RestApiClient.WithCookieAuth: the model does not capture .NET
  rejecting the all-empty cookie. With no matching cookie, the code passes an
  empty name to `request.AddCookie`, and `System.Net.Cookie` refuses an empty
  name. The model appends the all-empty entry and succeeds. Likewise, in the
  match branch, a copied cookie that the request's cookie container refuses
  (one with an empty domain, for instance) is not captured: the model always
  appends the copy.
- `null` for the names, values, authenticator and cookie collection of the
  builder calls. The code does not branch on them; what RestSharp does with
  them is not part of this model.
- Payload construction from fixture data, fixture file loading and the
  response data classes. They are serialisation, file I/O and property bags
  with no logic of their own.
