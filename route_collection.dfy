/**
 * The ordered list of routes and the lookup that finds the first route
 * matching a request's method and path.
 */
module RouteCollection {
  import opened Php
  import opened RouteDefinition

  /**
   * The index of the first route, in insertion order, that matches, or
   * `|routes|` when none does.
   */
  function FirstMatchIndex(routes: seq<Route>, verb: string, path: string, pcre: Pcre): (n: nat)
    ensures n <= |routes|
    ensures n < |routes| ==> Matches(routes[n], verb, path, pcre)
    ensures forall i :: 0 <= i < n ==> !Matches(routes[i], verb, path, pcre)
    decreases |routes|
  {
    if |routes| == 0 then 0
    else if Matches(routes[0], verb, path, pcre) then 0
    else 1 + FirstMatchIndex(routes[1..], verb, path, pcre)
  }

  /** The error a hit raises: the route class defines no `extractParams`. */
  const UndefinedExtractParams := "Call to undefined method Newtron\\Core\\Routing\\RouteDefinition::extractParams()"

  class Collection {
    var routes: seq<Route>

    constructor()
      ensures routes == []
    {
      routes := [];
    }

    /** `add`: append, keeping insertion order. */
    method Add(r: Route)
      modifies this
      ensures routes == old(routes) + [r]
    {
      routes := routes + [r];
    }

    /** `all`: every route, in insertion order. */
    function All(): (rs: seq<Route>)
      reads this
      ensures |rs| == |routes| && forall i :: 0 <= i < |rs| ==> rs[i] == routes[i]
    {
      routes
    }

    /**
     * `match` as written: a miss returns null, and a hit calls
     * `extractParams` on the route, which fails.
     */
    method MatchAsWritten(verb: string, path: string, pcre: Pcre) returns (r: Result<Option<Route>, string>)
      ensures r.Err? <==> exists i :: 0 <= i < |routes| && Matches(routes[i], verb, path, pcre)
      ensures r.Ok? ==> r.value.None?
      ensures r.Err? ==> r.error == UndefinedExtractParams
    {
      var i := 0;
      while i < |routes|
        invariant 0 <= i <= |routes|
        invariant forall k :: 0 <= k < i ==> !Matches(routes[k], verb, path, pcre)
      {
        if Matches(routes[i], verb, path, pcre) {
          return Err(UndefinedExtractParams);
        }
        i := i + 1;
      }
      return Ok(None);
    }

    /** `match` as intended: the first route in insertion order that matches, or null. */
    method Match(verb: string, path: string, pcre: Pcre) returns (r: Option<Route>)
      ensures r.None? <==> forall i :: 0 <= i < |routes| ==> !Matches(routes[i], verb, path, pcre)
      ensures r.Some? ==> r.value == routes[FirstMatchIndex(routes, verb, path, pcre)]
      ensures r.Some? ==> Matches(r.value, verb, path, pcre)
    {
      var i := 0;
      while i < |routes|
        invariant 0 <= i <= FirstMatchIndex(routes, verb, path, pcre)
      {
        if Matches(routes[i], verb, path, pcre) {
          return Some(routes[i]);
        }
        i := i + 1;
      }
      return None;
    }
  }

  /** Routes added later never shadow an earlier match; they are consulted only on a miss. */
  lemma {:induction false} LaterRoutesNeverShadow(routes: seq<Route>, more: seq<Route>, verb: string, path: string, pcre: Pcre)
    ensures FirstMatchIndex(routes, verb, path, pcre) < |routes| ==>
      FirstMatchIndex(routes + more, verb, path, pcre) == FirstMatchIndex(routes, verb, path, pcre)
    ensures FirstMatchIndex(routes, verb, path, pcre) == |routes| ==>
      FirstMatchIndex(routes + more, verb, path, pcre) == |routes| + FirstMatchIndex(more, verb, path, pcre)
    decreases |routes|
  {
    if |routes| == 0 {
      assert routes + more == more;
    } else {
      assert (routes + more)[0] == routes[0];
      assert (routes + more)[1..] == routes[1..] + more;
      LaterRoutesNeverShadow(routes[1..], more, verb, path, pcre);
    }
  }

  /** With GET and POST routes on one path, the request's method picks the route. */
  lemma MethodPicksRoute(post: Route, get: Route, pcre: Pcre)
    requires PcreAnchorsLiterals(pcre)
    requires post.verb == "POST" && get.verb == "GET" && post.pattern == get.pattern == "/test"
    ensures FirstMatchIndex([post, get], "GET", "/test", pcre) == 1
  {
    assert Upper("GET") == "GET";
    assert PlainPattern("/test");
    MatchesLiterally(post, "GET", "/test", pcre);
    MatchesLiterally(get, "GET", "/test", pcre);
    assert [post, get][1..] == [get];
  }
}
