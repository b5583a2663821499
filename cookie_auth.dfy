/**
 * The cookie tie-break of `RestApiClient.WithCookieAuth`: among the cookies
 * of a collection, in enumeration order, the last one whose name equals the
 * requested name (ordinal string equality) is the one used.
 */
module CookieAuth {
  import opened Requests

  /** A `System.Net.Cookie`, reduced to the four properties the client copies. */
  datatype Cookie = Cookie(name: string, value: string, path: string, domain: string)

  /** Index `i` holds a cookie named `name` and no later cookie is named `name`. */
  predicate IsLastMatch(cookies: seq<Cookie>, name: string, i: int)
  {
    && 0 <= i < |cookies|
    && cookies[i].name == name
    && forall j :: i < j < |cookies| ==> cookies[j].name != name
  }

  /** The reference choice: the last cookie named `name`, if there is one. */
  function SelectLast(cookies: seq<Cookie>, name: string): (r: Option<Cookie>)
    ensures r.Some? ==> r.value in cookies && r.value.name == name
  {
    if |cookies| == 0 then None
    else if cookies[|cookies| - 1].name == name then Some(cookies[|cookies| - 1])
    else
      var r := SelectLast(cookies[..|cookies| - 1], name);
      assert r.Some? ==> r.value in cookies[..|cookies| - 1];
      r
  }

  /** The LINQ `Where(cookie => cookie.Name == name)` filter: the matching cookies, in order. */
  function Matching(cookies: seq<Cookie>, name: string): (r: seq<Cookie>)
    ensures |r| <= |cookies|
    ensures forall k :: 0 <= k < |r| ==> r[k] in cookies && r[k].name == name
    ensures forall i :: 0 <= i < |cookies| && cookies[i].name == name ==> cookies[i] in r
  {
    if |cookies| == 0 then []
    else
      var front := cookies[..|cookies| - 1];
      var rest := Matching(front, name);
      assert forall k :: 0 <= k < |rest| ==> rest[k] in front;
      assert forall i :: 0 <= i < |front| ==> cookies[i] == front[i];
      if cookies[|cookies| - 1].name == name then rest + [cookies[|cookies| - 1]] else rest
  }

  /** Iterating over the filtered cookies and keeping the last one yields `SelectLast`. */
  lemma {:induction false} LastOfMatchingIsSelectLast(cookies: seq<Cookie>, name: string)
    ensures var m := Matching(cookies, name);
      SelectLast(cookies, name) == if |m| == 0 then None else Some(m[|m| - 1])
  {
    if |cookies| > 0 {
      LastOfMatchingIsSelectLast(cookies[..|cookies| - 1], name);
    }
  }

  /** No cookie is chosen exactly when no cookie has the requested name. */
  lemma {:induction false} SelectLastNoneIff(cookies: seq<Cookie>, name: string)
    ensures SelectLast(cookies, name).None? <==> forall i :: 0 <= i < |cookies| ==> cookies[i].name != name
  {
    if |cookies| > 0 {
      var front := cookies[..|cookies| - 1];
      SelectLastNoneIff(front, name);
      assert forall i :: 0 <= i < |front| ==> cookies[i] == front[i];
    }
  }

  /** The cookie at the last matching index is the one chosen. */
  lemma {:induction false} SelectLastAt(cookies: seq<Cookie>, name: string, i: int)
    requires IsLastMatch(cookies, name, i)
    ensures SelectLast(cookies, name) == Some(cookies[i])
  {
    if i < |cookies| - 1 {
      var front := cookies[..|cookies| - 1];
      assert forall j :: 0 <= j < |front| ==> cookies[j] == front[j];
      SelectLastAt(front, name, i);
    }
  }

  /** Whatever is chosen sits at the last matching index. */
  lemma {:induction false} SelectLastSome(cookies: seq<Cookie>, name: string)
    requires SelectLast(cookies, name).Some?
    ensures exists i :: IsLastMatch(cookies, name, i) && cookies[i] == SelectLast(cookies, name).value
  {
    var n := |cookies| - 1;
    if cookies[n].name == name {
      assert IsLastMatch(cookies, name, n);
    } else {
      var front := cookies[..n];
      SelectLastSome(front, name);
      var i :| IsLastMatch(front, name, i) && front[i] == SelectLast(front, name).value;
      assert IsLastMatch(cookies, name, i);
    }
  }

  /**
   * Last match wins: with `[(A,1),(B,2),(A,3)]` and name `A`, the cookie with
   * value `3` is chosen. The two `A` cookies differ in path, as they must for
   * one collection to hold both.
   */
  lemma LastMatchWinsExample(domain: string)
    ensures SelectLast([Cookie("A", "1", "/", domain), Cookie("B", "2", "/", domain), Cookie("A", "3", "/api", domain)], "A")
      == Some(Cookie("A", "3", "/api", domain))
  {
    var cs := [Cookie("A", "1", "/", domain), Cookie("B", "2", "/", domain), Cookie("A", "3", "/api", domain)];
    assert IsLastMatch(cs, "A", 2);
    SelectLastAt(cs, "A", 2);
  }
}
