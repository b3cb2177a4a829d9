/**
 * Route registration with group prefixes, and the normalisation of what a
 * route handler returns into a response. A group's callback is modelled
 * as the list of router calls it makes.
 */
module AbstractRouter {
  import opened Php
  import opened RouteDefinition
  import RouteCollection
  import HttpResponse
  import HttpStatus

  /** A group's attribute array; only its 'prefix' entry is read. */
  datatype GroupAttributes = GroupAttributes(prefix: Option<string>)

  /** A router call made by a group's callback, or an exception it throws. */
  datatype Action =
    | Register(verb: string, pattern: string, handler: Handler)
    | Group(attributes: GroupAttributes, body: seq<Action>)
    | Throw(message: string)

  /**
   * What running router calls leads to: the routes registered, and, when an
   * exception escapes, its message, the group attributes pushed and never
   * popped, and the prefix current when it was thrown.
   */
  datatype Outcome =
    | Done(routes: seq<Route>)
    | Threw(routes: seq<Route>, message: string, stack: seq<GroupAttributes>, prefix: Option<string>)

  /** `o` after the routes `rs` registered before it. */
  function Prepend(rs: seq<Route>, o: Outcome): (r: Outcome)
    ensures r.routes == rs + o.routes && r.Done? == o.Done?
    ensures o.Threw? ==> r.message == o.message && r.stack == o.stack && r.prefix == o.prefix
  {
    o.(routes := rs + o.routes)
  }

  /**
   * The pattern `addRoute` hands to the route: a non-root pattern becomes
   * '/' + its slash-trimmed self, and a truthy group prefix is put in front,
   * the root pattern becoming the prefix alone.
   */
  function RoutePattern(prefix: Option<string>, pattern: string): (r: string)
    ensures |r| > 0 && r[0] == '/'
  {
    var own := if pattern != "/" then "/" + Trim(pattern, Slash) else pattern;
    if prefix.Some? && !Falsy(prefix.value) then
      "/" + Trim(prefix.value, Slash) + (if own == "/" then "" else own)
    else
      own
  }

  /** Outside a group (or under a falsy prefix) the pattern is the normalised one. */
  lemma UngroupedPattern(prefix: Option<string>, pattern: string)
    requires prefix.None? || Falsy(prefix.value)
    ensures RoutePattern(prefix, pattern) == NormalizePattern(pattern)
  {
    if pattern == "/" {
      RootTrimsToEmpty();
    }
  }

  lemma RootTrimsToEmpty()
    ensures Trim("/", Slash) == ""
  {
    assert "/"[1..] == "";
    assert TrimLeft("/", Slash) == TrimLeft("", Slash);
  }

  /** Under a truthy prefix the root pattern becomes '/' + the trimmed prefix. */
  lemma GroupRootPattern(prefix: string)
    requires !Falsy(prefix)
    ensures RoutePattern(Some(prefix), "/") == "/" + Trim(prefix, Slash)
  {
    assert "/" + Trim(prefix, Slash) + "" == "/" + Trim(prefix, Slash);
  }

  /** Under a truthy prefix any other pattern sits one slash below the trimmed prefix. */
  lemma GroupedPattern(prefix: string, pattern: string)
    requires !Falsy(prefix) && Trim(pattern, Slash) != ""
    ensures RoutePattern(Some(prefix), pattern) == "/" + Trim(prefix, Slash) + "/" + Trim(pattern, Slash)
  {
    if pattern == "/" {
      RootTrimsToEmpty();
    }
    assert pattern != "/";
    var own := "/" + Trim(pattern, Slash);
    assert own != "/";
    assert "/" + Trim(prefix, Slash) + own == "/" + Trim(prefix, Slash) + "/" + Trim(pattern, Slash);
  }

  /** The prefix inside a group: joined to a truthy enclosing prefix by '/', or kept when none is given. */
  function NestedPrefix(previous: Option<string>, attributes: GroupAttributes): (p: Option<string>)
    ensures attributes.prefix.None? ==> p == previous
    ensures attributes.prefix.Some? ==> p.Some? && EndsWith(p.value, Trim(attributes.prefix.value, Slash))
    ensures attributes.prefix.Some? && previous.Some? && !Falsy(previous.value) ==> StartsWith(p.value, previous.value + "/")
  {
    match attributes.prefix
    case None => previous
    case Some(inner) =>
      var t := Trim(inner, Slash);
      if previous.Some? && !Falsy(previous.value) then
        var joined := previous.value + "/" + t;
        assert joined[..|previous.value + "/"|] == previous.value + "/";
        assert joined[|joined| - |t|..] == t;
        Some(joined)
      else
        assert t[|t| - |t|..] == t;
        Some(t)
  }

  /** What a list of router calls does under a prefix: each in order, stopping at an exception. */
  function Exec(actions: seq<Action>, prefix: Option<string>): Outcome
    decreases actions
  {
    if |actions| == 0 then Done([])
    else
      var before := Exec(actions[..|actions| - 1], prefix);
      if before.Threw? then before else Prepend(before.routes, ExecOne(actions[|actions| - 1], prefix))
  }

  /**
   * What one router call does under a prefix. A group runs its body under
   * the nested prefix; an exception from the body leaves the group's
   * attributes pushed, since nothing pops them on the way out.
   */
  function ExecOne(a: Action, prefix: Option<string>): Outcome
    decreases a
  {
    match a
    case Register(verb, pattern, h) => Done([NewRoute(verb, RoutePattern(prefix, pattern), h)])
    case Throw(message) => Threw([], message, [], prefix)
    case Group(attributes, body) =>
      var o := Exec(body, NestedPrefix(prefix, attributes));
      if o.Threw? then o.(stack := [attributes] + o.stack) else o
  }

  /** Running one more call after calls that all returned appends that call's outcome. */
  lemma ExecSnoc(actions: seq<Action>, i: nat, prefix: Option<string>)
    requires i < |actions| && Exec(actions[..i], prefix).Done?
    ensures Exec(actions[..i + 1], prefix) == Prepend(Exec(actions[..i], prefix).routes, ExecOne(actions[i], prefix))
  {
    assert actions[..i + 1][..i] == actions[..i];
  }

  /** Once a call throws, the calls after it never run. */
  lemma {:induction false} ThrewStays(actions: seq<Action>, i: nat, prefix: Option<string>)
    requires i <= |actions| && Exec(actions[..i], prefix).Threw?
    ensures Exec(actions, prefix) == Exec(actions[..i], prefix)
    decreases |actions| - i
  {
    if i == |actions| {
      assert actions[..i] == actions;
    } else {
      assert actions[..i + 1][..i] == actions[..i];
      ThrewStays(actions, i + 1, prefix);
    }
  }

  /** A callback that only throws leaves its group on the stack and its prefix current. */
  lemma ThrowLeavesGroupOpen(attributes: GroupAttributes, message: string, prefix: Option<string>)
    ensures ExecOne(Group(attributes, [Throw(message)]), prefix)
      == Threw([], message, [attributes], NestedPrefix(prefix, attributes))
  {
    var body := [Throw(message)];
    assert body[..0] == [];
    assert Exec(body, NestedPrefix(prefix, attributes)) == Threw([], message, [], NestedPrefix(prefix, attributes));
  }

  /** Routes registered before an exception stay registered, and nothing after it is. */
  lemma RoutesBeforeThrowKept(before: seq<Action>, message: string, after: seq<Action>, prefix: Option<string>)
    requires Exec(before, prefix).Done?
    ensures Exec(before + [Throw(message)] + after, prefix)
      == Threw(Exec(before, prefix).routes, message, [], prefix)
  {
    var all := before + [Throw(message)] + after;
    var i := |before|;
    assert all[..i] == before;
    ExecSnoc(all, i, prefix);
    ThrewStays(all, i + 1, prefix);
  }

  /** The routes `match` registers: one per verb, in order, all with the same pattern and handler. */
  function RoutesFor(verbs: seq<string>, prefix: Option<string>, pattern: string, h: Handler): seq<Route> {
    seq(|verbs|, i requires 0 <= i < |verbs| => NewRoute(verbs[i], RoutePattern(prefix, pattern), h))
  }

  /** Registering one more verb of `match` appends its route. */
  lemma RoutesForSnoc(verbs: seq<string>, prefix: Option<string>, pattern: string, h: Handler, i: nat)
    requires i < |verbs|
    ensures RoutesFor(verbs[..i + 1], prefix, pattern, h) ==
      RoutesFor(verbs[..i], prefix, pattern, h) + [NewRoute(verbs[i], RoutePattern(prefix, pattern), h)]
  {
    var a := RoutesFor(verbs[..i + 1], prefix, pattern, h);
    var b := RoutesFor(verbs[..i], prefix, pattern, h) + [NewRoute(verbs[i], RoutePattern(prefix, pattern), h)];
    assert |a| == |b|;
    forall j | 0 <= j < |a|
      ensures a[j] == b[j]
    {
      assert verbs[..i + 1][j] == verbs[j];
      if j < i {
        assert verbs[..i][j] == verbs[j];
      }
    }
    assert a == b;
  }

  const AnyVerbs: seq<string> := ["GET", "POST", "PUT", "PATCH", "DELETE"]

  /** The verbs `get` to `delete` and `any` pass are already upper-case, so routes store them as given. */
  lemma UpperCaseVerbs()
    ensures forall i :: 0 <= i < |AnyVerbs| ==> Upper(AnyVerbs[i]) == AnyVerbs[i]
  {
    assert Upper("GET") == "GET";
    assert Upper("POST") == "POST";
    assert Upper("PUT") == "PUT";
    assert Upper("PATCH") == "PATCH";
    assert Upper("DELETE") == "DELETE";
  }

  /** `any` registers GET, POST, PUT, PATCH and DELETE, in that order, on one pattern. */
  lemma AnyRoutes(prefix: Option<string>, pattern: string, h: Handler)
    ensures forall i :: 0 <= i < 5 ==> RoutesFor(AnyVerbs, prefix, pattern, h)[i].verb == AnyVerbs[i]
    ensures forall i :: 0 <= i < 5 ==> RoutesFor(AnyVerbs, prefix, pattern, h)[i].pattern == NormalizePattern(RoutePattern(prefix, pattern))
  {
    UpperCaseVerbs();
  }

  class Router {
    const routes: RouteCollection.Collection
    var groupStack: seq<GroupAttributes>
    var currentGroupPrefix: Option<string>

    constructor()
      ensures fresh(routes) && routes.routes == []
      ensures groupStack == [] && currentGroupPrefix == None
    {
      routes := new RouteCollection.Collection();
      groupStack := [];
      currentGroupPrefix := None;
    }

    /** `getRoutes`: the collection's routes in registration order. */
    function GetRoutes(): (rs: seq<Route>)
      reads this, routes
      ensures |rs| == |routes.routes| && forall i :: 0 <= i < |rs| ==> rs[i] == routes.routes[i]
    {
      routes.All()
    }

    /** `addRoute`: build the route under the current prefix and append it to the collection. */
    method AddRoute(verb: string, pattern: string, handler: Handler) returns (r: Route)
      modifies routes
      ensures r == NewRoute(verb, RoutePattern(currentGroupPrefix, pattern), handler)
      ensures routes.routes == old(routes.routes) + [r]
    {
      r := NewRoute(verb, RoutePattern(currentGroupPrefix, pattern), handler);
      routes.Add(r);
    }

    method Get(pattern: string, handler: Handler) returns (r: Route)
      modifies routes
      ensures r == NewRoute("GET", RoutePattern(currentGroupPrefix, pattern), handler)
      ensures routes.routes == old(routes.routes) + [r]
    {
      r := AddRoute("GET", pattern, handler);
    }

    method Post(pattern: string, handler: Handler) returns (r: Route)
      modifies routes
      ensures r == NewRoute("POST", RoutePattern(currentGroupPrefix, pattern), handler)
      ensures routes.routes == old(routes.routes) + [r]
    {
      r := AddRoute("POST", pattern, handler);
    }

    method Put(pattern: string, handler: Handler) returns (r: Route)
      modifies routes
      ensures r == NewRoute("PUT", RoutePattern(currentGroupPrefix, pattern), handler)
      ensures routes.routes == old(routes.routes) + [r]
    {
      r := AddRoute("PUT", pattern, handler);
    }

    method Patch(pattern: string, handler: Handler) returns (r: Route)
      modifies routes
      ensures r == NewRoute("PATCH", RoutePattern(currentGroupPrefix, pattern), handler)
      ensures routes.routes == old(routes.routes) + [r]
    {
      r := AddRoute("PATCH", pattern, handler);
    }

    method Delete(pattern: string, handler: Handler) returns (r: Route)
      modifies routes
      ensures r == NewRoute("DELETE", RoutePattern(currentGroupPrefix, pattern), handler)
      ensures routes.routes == old(routes.routes) + [r]
    {
      r := AddRoute("DELETE", pattern, handler);
    }

    /** `match`: one route per given method, in order, all appended and returned. */
    method MatchVerbs(verbs: seq<string>, pattern: string, handler: Handler) returns (rs: seq<Route>)
      modifies routes
      ensures rs == RoutesFor(verbs, currentGroupPrefix, pattern, handler)
      ensures routes.routes == old(routes.routes) + rs
    {
      rs := [];
      ghost var prefix := currentGroupPrefix;
      var i := 0;
      while i < |verbs|
        invariant 0 <= i <= |verbs| && currentGroupPrefix == prefix
        invariant rs == RoutesFor(verbs[..i], prefix, pattern, handler)
        invariant routes.routes == old(routes.routes) + rs
      {
        var r := AddRoute(verbs[i], pattern, handler);
        RoutesForSnoc(verbs, prefix, pattern, handler, i);
        AppendAssoc(old(routes.routes), rs, [r]);
        rs := rs + [r];
        i := i + 1;
      }
      assert verbs[..i] == verbs;
    }

    /** `any`: GET, POST, PUT, PATCH and DELETE, in that order. */
    method Any(pattern: string, handler: Handler) returns (rs: seq<Route>)
      modifies routes
      ensures rs == RoutesFor(AnyVerbs, currentGroupPrefix, pattern, handler)
      ensures |rs| == 5 && forall i :: 0 <= i < 5 ==> rs[i].verb == AnyVerbs[i]
      ensures routes.routes == old(routes.routes) + rs
    {
      rs := MatchVerbs(AnyVerbs, pattern, handler);
      AnyRoutes(currentGroupPrefix, pattern, handler);
    }

    /**
     * `group`: push the attributes, switch to the nested prefix, run the
     * callback, then pop and restore the previous prefix. An exception from
     * the callback propagates past the pop and the restore.
     */
    method RunGroup(attributes: GroupAttributes, body: seq<Action>) returns (thrown: Option<string>)
      modifies this`groupStack, this`currentGroupPrefix, routes
      ensures var o := ExecOne(Group(attributes, body), old(currentGroupPrefix));
        routes.routes == old(routes.routes) + o.routes &&
        (o.Done? ==> thrown.None? && groupStack == old(groupStack) && currentGroupPrefix == old(currentGroupPrefix)) &&
        (o.Threw? ==> thrown == Some(o.message) && groupStack == old(groupStack) + o.stack && currentGroupPrefix == o.prefix)
      decreases Group(attributes, body), 1
    {
      ghost var stack := groupStack;
      groupStack := groupStack + [attributes];
      var previous := currentGroupPrefix;
      currentGroupPrefix := NestedPrefix(previous, attributes);
      thrown := Run(body);
      if thrown.Some? {
        ghost var o := Exec(body, NestedPrefix(previous, attributes));
        assert groupStack == stack + [attributes] + o.stack;
        AppendAssoc(stack, [attributes], o.stack);
        return;
      }
      groupStack := groupStack[..|groupStack| - 1];
      currentGroupPrefix := previous;
    }

    /** One router call made by a group's callback. */
    method Step(a: Action) returns (thrown: Option<string>)
      modifies this`groupStack, this`currentGroupPrefix, routes
      ensures var o := ExecOne(a, old(currentGroupPrefix));
        routes.routes == old(routes.routes) + o.routes &&
        (o.Done? ==> thrown.None? && groupStack == old(groupStack) && currentGroupPrefix == old(currentGroupPrefix)) &&
        (o.Threw? ==> thrown == Some(o.message) && groupStack == old(groupStack) + o.stack && currentGroupPrefix == o.prefix)
      decreases a, 2
    {
      match a
      case Register(verb, pattern, h) => {
        var _ := AddRoute(verb, pattern, h);
        thrown := None;
      }
      case Throw(message) => {
        thrown := Some(message);
      }
      case Group(attributes, body) => {
        thrown := RunGroup(attributes, body);
      }
    }

    /** The group's callback: each router call in order, until one throws. */
    method Run(actions: seq<Action>) returns (thrown: Option<string>)
      modifies this`groupStack, this`currentGroupPrefix, routes
      ensures var o := Exec(actions, old(currentGroupPrefix));
        routes.routes == old(routes.routes) + o.routes &&
        (o.Done? ==> thrown.None? && groupStack == old(groupStack) && currentGroupPrefix == old(currentGroupPrefix)) &&
        (o.Threw? ==> thrown == Some(o.message) && groupStack == old(groupStack) + o.stack && currentGroupPrefix == o.prefix)
      decreases actions, 0
    {
      ghost var prefix := currentGroupPrefix;
      ghost var start := routes.routes;
      var i := 0;
      while i < |actions|
        invariant 0 <= i <= |actions|
        invariant groupStack == old(groupStack) && currentGroupPrefix == prefix
        invariant Exec(actions[..i], prefix).Done?
        invariant routes.routes == start + Exec(actions[..i], prefix).routes
        decreases |actions| - i
      {
        ExecSnoc(actions, i, prefix);
        ghost var done := Exec(actions[..i], prefix).routes;
        assert actions[i] in actions;
        var t := Step(actions[i]);
        AppendAssoc(start, done, ExecOne(actions[i], prefix).routes);
        if t.Some? {
          ThrewStays(actions, i + 1, prefix);
          return t;
        }
        i := i + 1;
      }
      assert actions[..i] == actions;
      return None;
    }
  }

  /** What a route handler may return. */
  datatype HandlerResult =
    | AResponse(response: HttpResponse.Response)
    | AnArray(encoded: Option<string>)  // the array's `json_encode`, or false
    | AString(s: string)
    | AnInt(i: int)
    | AFloat(text: string)              // a float, and its `(string)` form
    | ANull
    | ABool(b: bool)
    | AStringable(text: string)         // an object with `__toString`, and what it returns
    | AnObject                          // any other object

  const InvalidResponseType := "Invalid response type returned from route handler"
  const MethodExistsTypeError := "method_exists(): Argument #1 ($object_or_class) must be of type object|string, bool given"

  /**
   * `normalizeResponse`: a response passes through; an array becomes a JSON
   * response; a string, integer or float becomes the content; null becomes an empty
   * 204; a stringable object becomes its string; anything else is an error.
   */
  method NormalizeResponse(result: HandlerResult) returns (r: Result<HttpResponse.Response, string>)
    ensures result.AResponse? ==> r == Ok(result.response)
    ensures result.AnArray? ==> (r.Ok? <==> result.encoded.Some?)
    ensures result.AnArray? && r.Ok? ==>
      fresh(r.value) && r.value.content == result.encoded.value && r.value.statusCode == 200 &&
      r.value.headers == [(HttpResponse.ContentType, HttpResponse.JsonType)]
    ensures result.AString? || result.AnInt? || result.AFloat? || result.ANull? || result.AStringable? ==>
      r.Ok? && fresh(r.value) && r.value.headers == [] && r.value.cookies == []
    ensures result.AString? ==> r.Ok? && r.value.content == result.s && r.value.statusCode == 200
    ensures result.AnInt? ==> r.Ok? && r.value.content == IntToString(result.i) && r.value.statusCode == 200
    ensures result.AFloat? ==> r.Ok? && r.value.content == result.text && r.value.statusCode == 200
    ensures result.ANull? ==> r.Ok? && r.value.content == "" && r.value.statusCode == 204
    ensures result.AStringable? ==> r.Ok? && r.value.content == result.text && r.value.statusCode == 200
    ensures result.ABool? ==> r == Err(MethodExistsTypeError)
    ensures result.AnObject? ==> r == Err(InvalidResponseType)
  {
    match result
    case AResponse(response) =>
      r := Ok(response);
    case AnArray(encoded) =>
      r := HttpResponse.CreateJson(encoded);
    case AString(s) =>
      r := HttpResponse.Create(s);
    case AnInt(i) =>
      r := HttpResponse.Create(IntToString(i));
    case AFloat(text) =>
      r := HttpResponse.Create(text);
    case ANull =>
      r := HttpResponse.Create("", HttpResponse.Case(HttpStatus.NoContent));
    case ABool(_) =>
      r := Err(MethodExistsTypeError);
    case AStringable(text) =>
      r := HttpResponse.Create(text);
    case AnObject =>
      r := Err(InvalidResponseType);
  }

  /** Inside a group, the root pattern is the prefix itself. */
  lemma GroupedRoutes(prefix: string, h: Handler)
    requires !Falsy(Trim(prefix, Slash))
    ensures Exec([Group(GroupAttributes(Some(prefix)), [Register("get", "/", h)])], None)
      == Done([NewRoute("get", "/" + Trim(prefix, Slash), h)])
  {
    var t := Trim(prefix, Slash);
    var a := Group(GroupAttributes(Some(prefix)), [Register("get", "/", h)]);
    var body := [Register("get", "/", h)];
    assert [a][..0] == [] && body[..0] == [];
    assert Exec([a], None) == ExecOne(a, None);
    assert NestedPrefix(None, GroupAttributes(Some(prefix))) == Some(t);
    assert ExecOne(a, None) == Exec(body, Some(t));
    assert Exec(body, Some(t)) == Done([NewRoute("get", RoutePattern(Some(t), "/"), h)]);
    GroupRootPattern(t);
    TrimIdempotent(prefix, Slash);
  }

  /** Nested groups join their prefixes with '/'. */
  lemma NestedGroupPrefix(outer: string, inner: string)
    requires !Falsy(outer)
    ensures NestedPrefix(NestedPrefix(None, GroupAttributes(Some(outer))), GroupAttributes(Some(inner)))
      == if Falsy(Trim(outer, Slash)) then Some(Trim(inner, Slash))
         else Some(Trim(outer, Slash) + "/" + Trim(inner, Slash))
  {
  }
}
