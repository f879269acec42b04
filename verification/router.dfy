/**
 * The REST route table of `Mad\Rest\Router` (lib/mad/rest/Router.php): route groups with
 * a URL prefix and a middleware that are saved and restored around the group's callback,
 * registration with slash normalisation, and first-match lookup.
 *
 * The router's static fields become a state record updated by pure steps. A group's
 * callback is represented by the route definitions it makes, in order. `Route::matchUrl`
 * is a parameter (a predicate over the route's URL and the request's URL), and the
 * middleware call and the controller dispatch after a match are not part of this model.
 */
module Router {
  import opened Results
  import opened Strings

  /** A registered route; `middleware` is set only when a group middleware was active. */
  datatype Route = Route(verb: string, url: string, action: string, middleware: Option<string>)

  /** The static state: registered routes, the current URL prefix and group middleware. */
  datatype RouterState = RouterState(routes: seq<Route>, urlPrefix: string, middleware: Option<string>)

  /** The state before any registration: no routes, no prefix, no middleware. */
  const Initial := RouterState([], "", None)

  /** The `prefix` and `middleware` entries of a group's parameters ("" when absent). */
  datatype GroupParams = GroupParams(prefix: string, middleware: string)

  /** What a group's callback does: register a route, or open a nested group. */
  datatype Definition =
    | AddDef(verb: string, uri: string, action: string)
    | GroupDef(params: GroupParams, body: seq<Definition>)

  /** `'/' . ltrim($uri, '/')`: exactly one leading slash. */
  function NormalizeUri(uri: string): (u: string)
    ensures |u| > 0 && u[0] == '/'
    ensures |u| > 1 ==> u[1] != '/'
    ensures u[1..] == TrimLeft(uri, '/')
  {
    "/" + TrimLeft(uri, '/')
  }

  /** The URL `addRoute` registers: the normalised URI behind the prefix without its trailing slashes. */
  function FullUrl(urlPrefix: string, uri: string): (u: string)
    ensures !Truthy(urlPrefix) ==> u == NormalizeUri(uri)
    ensures Truthy(urlPrefix) ==> u == TrimRight(urlPrefix, '/') + NormalizeUri(uri)
  {
    if Truthy(urlPrefix) then TrimRight(urlPrefix, '/') + NormalizeUri(uri) else NormalizeUri(uri)
  }

  /** `addRoute`: one route at the end, carrying the active middleware. */
  function AddRoute(s: RouterState, verb: string, uri: string, action: string): (r: RouterState)
    ensures r.urlPrefix == s.urlPrefix && r.middleware == s.middleware
    ensures |r.routes| == |s.routes| + 1 && r.routes[..|s.routes|] == s.routes
    ensures r.routes[|s.routes|] == Route(verb, FullUrl(s.urlPrefix, uri), action, s.middleware)
  {
    s.(routes := s.routes + [Route(verb, FullUrl(s.urlPrefix, uri), action, s.middleware)])
  }

  /** The prefix inside a group: the outer one extended by the parameter without its leading slashes. */
  function GroupPrefix(outer: string, prefix: string): (p: string)
    ensures !Truthy(prefix) ==> p == outer
    ensures Truthy(prefix) && !Truthy(outer) ==> p == "/" + TrimLeft(prefix, '/')
    ensures Truthy(prefix) && Truthy(outer) ==> p == outer + "/" + TrimLeft(prefix, '/')
  {
    if !Truthy(prefix) then outer
    else if Truthy(outer) then outer + "/" + TrimLeft(prefix, '/')
    else "/" + TrimLeft(prefix, '/')
  }

  /** The middleware inside a group: the parameter when it is set, the outer one otherwise. */
  function GroupMiddleware(outer: Option<string>, middleware: string): (m: Option<string>)
    ensures Truthy(middleware) ==> m == Some(middleware)
    ensures !Truthy(middleware) ==> m == outer
  {
    if Truthy(middleware) then Some(middleware) else outer
  }

  /**
   * Running a callback's definitions in order. Whatever a callback does, the prefix and
   * middleware are back to their values on entry and the earlier routes are untouched.
   */
  function Exec(s: RouterState, defs: seq<Definition>): (r: RouterState)
    ensures r.urlPrefix == s.urlPrefix && r.middleware == s.middleware
    ensures |r.routes| >= |s.routes| && r.routes[..|s.routes|] == s.routes
    decreases defs, 1
  {
    if |defs| == 0 then s
    else
      var s1 := Step(s, defs[0]);
      var r := Exec(s1, defs[1..]);
      assert r.routes[..|s.routes|] == r.routes[..|s1.routes|][..|s.routes|];
      r
  }

  /** One definition: `addRoute`, or `group` with its save and restore. */
  function Step(s: RouterState, d: Definition): (r: RouterState)
    ensures r.urlPrefix == s.urlPrefix && r.middleware == s.middleware
    ensures |r.routes| >= |s.routes| && r.routes[..|s.routes|] == s.routes
    decreases d, 0
  {
    match d
    case AddDef(verb, uri, action) => AddRoute(s, verb, uri, action)
    case GroupDef(params, body) => Group(s, params, body)
  }

  /** `group`: set the prefix and middleware, run the callback, restore both. */
  function Group(s: RouterState, params: GroupParams, body: seq<Definition>): (r: RouterState)
    ensures r.urlPrefix == s.urlPrefix && r.middleware == s.middleware
    ensures |r.routes| >= |s.routes| && r.routes[..|s.routes|] == s.routes
    decreases body, 2
  {
    var inner := s.(urlPrefix := GroupPrefix(s.urlPrefix, params.prefix),
                    middleware := GroupMiddleware(s.middleware, params.middleware));
    var after := Exec(inner, body);
    after.(urlPrefix := s.urlPrefix, middleware := s.middleware)
  }

  /** True when a prefix is unset or starts with a slash, as every prefix `group` builds does. */
  predicate SlashPrefix(p: string) {
    p == "" || p[0] == '/'
  }

  /** Nested groups keep the prefix either unset or starting with a slash. */
  lemma GroupPrefixShape(outer: string, prefix: string)
    requires SlashPrefix(outer)
    ensures SlashPrefix(GroupPrefix(outer, prefix))
    ensures Truthy(prefix) ==> |GroupPrefix(outer, prefix)| > 0 && Truthy(GroupPrefix(outer, prefix))
  {
    var p := GroupPrefix(outer, prefix);
    if Truthy(prefix) {
      if Truthy(outer) {
        assert p[0] == outer[0];
      } else {
        assert p[0] == '/';
      }
      assert p[0] == '/' && p != "0";
    }
  }

  /** The routes a flat callback (only registrations) adds, in order, under the current settings. */
  function Registered(s: RouterState, defs: seq<Definition>): (rs: seq<Route>)
    requires forall i :: 0 <= i < |defs| ==> defs[i].AddDef?
    ensures |rs| == |defs|
  {
    seq(|defs|, i requires 0 <= i < |defs| && defs[i].AddDef? =>
      Route(defs[i].verb, FullUrl(s.urlPrefix, defs[i].uri), defs[i].action, s.middleware))
  }

  /** A callback that only registers routes appends them in order, each under the active prefix and middleware. */
  lemma {:induction false} ExecFlat(s: RouterState, defs: seq<Definition>)
    requires forall i :: 0 <= i < |defs| ==> defs[i].AddDef?
    ensures Exec(s, defs).routes == s.routes + Registered(s, defs)
    decreases |defs|
  {
    if |defs| > 0 {
      var s1 := Step(s, defs[0]);
      var R := Registered(s, defs);
      assert Exec(s, defs) == Exec(s1, defs[1..]);
      ExecFlat(s1, defs[1..]);
      assert s1.routes == s.routes + [R[0]] by {
        assert s1 == AddRoute(s, defs[0].verb, defs[0].uri, defs[0].action);
      }
      RegisteredTail(s, s1, defs);
      ConsAppend(s.routes, R);
    }
  }

  /** The registrations after the first depend only on the prefix and middleware, which a registration keeps. */
  lemma RegisteredTail(s: RouterState, s1: RouterState, defs: seq<Definition>)
    requires |defs| > 0 && forall i :: 0 <= i < |defs| ==> defs[i].AddDef?
    requires s1.urlPrefix == s.urlPrefix && s1.middleware == s.middleware
    ensures Registered(s1, defs[1..]) == Registered(s, defs)[1..]
  {
  }

  /** Appending the head of a non-empty list, then its tail, appends the list. */
  lemma ConsAppend<T>(a: seq<T>, r: seq<T>)
    requires |r| > 0
    ensures (a + [r[0]]) + r[1..] == a + r
  {
    assert [r[0]] + r[1..] == r;
  }

  /**
   * A group whose callback only registers routes gives them the group's URL prefix and
   * middleware (the outer middleware when the group sets none), and then restores both.
   */
  lemma GroupRoutes(s: RouterState, params: GroupParams, defs: seq<Definition>)
    requires forall i :: 0 <= i < |defs| ==> defs[i].AddDef?
    ensures var r := Group(s, params, defs);
      r.urlPrefix == s.urlPrefix && r.middleware == s.middleware &&
      |r.routes| == |s.routes| + |defs| && r.routes[..|s.routes|] == s.routes &&
      forall i :: 0 <= i < |defs| ==>
        r.routes[|s.routes| + i] ==
          Route(defs[i].verb, FullUrl(GroupPrefix(s.urlPrefix, params.prefix), defs[i].uri), defs[i].action,
                GroupMiddleware(s.middleware, params.middleware))
  {
    var inner := s.(urlPrefix := GroupPrefix(s.urlPrefix, params.prefix),
                    middleware := GroupMiddleware(s.middleware, params.middleware));
    ExecFlat(inner, defs);
  }

  /** `rtrim` of a string is a prefix of `rtrim` of any extension of it. */
  lemma {:induction false} TrimRightExtends(a: string, b: string)
    ensures TrimRight(a, '/') <= TrimRight(a + b, '/')
    decreases |b|
  {
    if |b| == 0 {
      assert a + b == a;
    } else if b[|b| - 1] == '/' {
      assert (a + b)[..|a + b| - 1] == a + b[..|b| - 1];
      TrimRightExtends(a, b[..|b| - 1]);
    } else {
      assert TrimRight(a + b, '/') == a + b;
      assert TrimRight(a, '/') == a[..|TrimRight(a, '/')|] == (a + b)[..|TrimRight(a, '/')|];
    }
  }

  /** A group inside a prefixed scope keeps a set prefix that extends the outer one. */
  lemma InnerPrefixExtends(outer: string, prefix: string)
    requires Truthy(outer) || Truthy(prefix)
    ensures Truthy(GroupPrefix(outer, prefix))
    ensures Truthy(outer) ==> TrimRight(outer, '/') <= TrimRight(GroupPrefix(outer, prefix), '/')
  {
    var p := GroupPrefix(outer, prefix);
    if Truthy(prefix) {
      var x := "/" + TrimLeft(prefix, '/');
      if Truthy(outer) {
        assert p == outer + x && |p| > |outer| >= 1;
        TrimRightExtends(outer, x);
      } else {
        assert p[0] == '/';
      }
    }
  }

  /** Every route a callback registers in a prefixed scope, nested groups included, starts with that prefix. */
  lemma {:induction false} ExecPrefix(s: RouterState, defs: seq<Definition>)
    requires Truthy(s.urlPrefix)
    ensures forall i :: |s.routes| <= i < |Exec(s, defs).routes| ==>
              TrimRight(s.urlPrefix, '/') <= Exec(s, defs).routes[i].url
    decreases defs, 1
  {
    if |defs| > 0 {
      var s1 := Step(s, defs[0]);
      StepPrefix(s, defs[0]);
      ExecPrefix(s1, defs[1..]);
      var r := Exec(s, defs);
      forall i | |s.routes| <= i < |r.routes|
        ensures TrimRight(s.urlPrefix, '/') <= r.routes[i].url
      {
        if i < |s1.routes| {
          assert r.routes[i] == r.routes[..|s1.routes|][i] == s1.routes[i];
        }
      }
    }
  }

  lemma {:induction false} StepPrefix(s: RouterState, d: Definition)
    requires Truthy(s.urlPrefix)
    ensures forall i :: |s.routes| <= i < |Step(s, d).routes| ==>
              TrimRight(s.urlPrefix, '/') <= Step(s, d).routes[i].url
    decreases d, 0
  {
    match d
    case AddDef(_, _, _) =>
    case GroupDef(params, body) =>
      var inner := s.(urlPrefix := GroupPrefix(s.urlPrefix, params.prefix),
                      middleware := GroupMiddleware(s.middleware, params.middleware));
      InnerPrefixExtends(s.urlPrefix, params.prefix);
      ExecPrefix(inner, body);
      assert Step(s, d).routes == Exec(inner, body).routes;
      var P := TrimRight(s.urlPrefix, '/');
      var Q := TrimRight(inner.urlPrefix, '/');
      forall i | |s.routes| <= i < |Step(s, d).routes|
        ensures P <= Step(s, d).routes[i].url
      {
        var u := Step(s, d).routes[i].url;
        assert Q <= u && P <= Q;
        assert P == Q[..|P|] == u[..|P|];
      }
  }

  /**
   * Inside a group with a prefix, every route registered, however deeply nested, has a URL
   * that starts with the group's prefix (without its trailing slashes); an inner group can
   * only lengthen it.
   */
  lemma GroupPrefixApplies(s: RouterState, params: GroupParams, body: seq<Definition>)
    requires Truthy(params.prefix)
    ensures forall i :: |s.routes| <= i < |Group(s, params, body).routes| ==>
              TrimRight(GroupPrefix(s.urlPrefix, params.prefix), '/') <= Group(s, params, body).routes[i].url
  {
    var inner := s.(urlPrefix := GroupPrefix(s.urlPrefix, params.prefix),
                    middleware := GroupMiddleware(s.middleware, params.middleware));
    InnerPrefixExtends(s.urlPrefix, params.prefix);
    ExecPrefix(inner, body);
  }

  /** No group anywhere in the definitions sets a middleware. */
  predicate NoGroupMiddleware(defs: seq<Definition>)
    decreases defs
  {
    forall i :: 0 <= i < |defs| ==>
      match defs[i]
      case AddDef(_, _, _) => true
      case GroupDef(params, body) => !Truthy(params.middleware) && NoGroupMiddleware(body)
  }

  /** Every route a callback registers carries the middleware active when it runs, unless a nested group sets another. */
  lemma {:induction false} ExecMiddleware(s: RouterState, defs: seq<Definition>)
    requires NoGroupMiddleware(defs)
    ensures forall i :: |s.routes| <= i < |Exec(s, defs).routes| ==> Exec(s, defs).routes[i].middleware == s.middleware
    decreases defs, 1
  {
    if |defs| > 0 {
      var s1 := Step(s, defs[0]);
      StepMiddleware(s, defs[0]);
      assert NoGroupMiddleware(defs[1..]) by {
        assert forall i :: 0 <= i < |defs| - 1 ==> defs[1..][i] == defs[i + 1];
      }
      ExecMiddleware(s1, defs[1..]);
      var r := Exec(s, defs);
      forall i | |s.routes| <= i < |r.routes|
        ensures r.routes[i].middleware == s.middleware
      {
        if i < |s1.routes| {
          assert r.routes[i] == r.routes[..|s1.routes|][i] == s1.routes[i];
        }
      }
    }
  }

  lemma {:induction false} StepMiddleware(s: RouterState, d: Definition)
    requires d.GroupDef? ==> !Truthy(d.params.middleware) && NoGroupMiddleware(d.body)
    ensures forall i :: |s.routes| <= i < |Step(s, d).routes| ==> Step(s, d).routes[i].middleware == s.middleware
    decreases d, 0
  {
    match d
    case AddDef(_, _, _) =>
    case GroupDef(params, body) =>
      var inner := s.(urlPrefix := GroupPrefix(s.urlPrefix, params.prefix),
                      middleware := GroupMiddleware(s.middleware, params.middleware));
      ExecMiddleware(inner, body);
      assert inner.middleware == s.middleware && inner.routes == s.routes;
      assert Step(s, d).routes == Exec(inner, body).routes;
  }

  /**
   * Inside a group that sets a middleware, every route registered (however deeply nested,
   * as long as no inner group sets its own) carries that middleware.
   */
  lemma GroupMiddlewareApplies(s: RouterState, params: GroupParams, body: seq<Definition>)
    requires Truthy(params.middleware) && NoGroupMiddleware(body)
    ensures forall i :: |s.routes| <= i < |Group(s, params, body).routes| ==>
              Group(s, params, body).routes[i].middleware == Some(params.middleware)
  {
    var inner := s.(urlPrefix := GroupPrefix(s.urlPrefix, params.prefix),
                    middleware := GroupMiddleware(s.middleware, params.middleware));
    ExecMiddleware(inner, body);
  }

  /** A request as the router reads it: its method and URL. */
  datatype Request = Request(verb: string, url: string)

  /** A route answers a request when the methods are equal and its URL matches the request's. */
  predicate Hits(route: Route, req: Request, matchUrl: (string, string) -> bool) {
    route.verb == req.verb && matchUrl(route.url, req.url)
  }

  /** `getRoute`: the earliest registered route that answers the request, if any. */
  function GetRoute(routes: seq<Route>, req: Request, matchUrl: (string, string) -> bool): (r: Option<Route>)
    ensures r.None? <==> forall i :: 0 <= i < |routes| ==> !Hits(routes[i], req, matchUrl)
    ensures r.Some? ==> exists i :: 0 <= i < |routes| && routes[i] == r.value && Hits(routes[i], req, matchUrl) &&
                          forall j :: 0 <= j < i ==> !Hits(routes[j], req, matchUrl)
  {
    if |routes| == 0 then None
    else if Hits(routes[0], req, matchUrl) then Some(routes[0])
    else
      var r := GetRoute(routes[1..], req, matchUrl);
      assert forall i :: 0 <= i < |routes| - 1 ==> routes[1..][i] == routes[i + 1];
      r
  }

  /** Registering more routes never changes which route an earlier match picks. */
  lemma {:induction false} LaterRoutesDoNotShadow(routes: seq<Route>, more: seq<Route>, req: Request,
                                                  matchUrl: (string, string) -> bool)
    ensures GetRoute(routes, req, matchUrl).Some? ==>
              GetRoute(routes + more, req, matchUrl) == GetRoute(routes, req, matchUrl)
    ensures GetRoute(routes, req, matchUrl).None? ==>
              GetRoute(routes + more, req, matchUrl) == GetRoute(more, req, matchUrl)
  {
    if |routes| > 0 {
      assert (routes + more)[0] == routes[0];
      assert (routes + more)[1..] == routes[1..] + more;
      LaterRoutesDoNotShadow(routes[1..], more, req, matchUrl);
    } else {
      assert routes + more == more;
    }
  }

  /** The JSON error response `validate` and `execute` answer with. */
  datatype JsonResponse = JsonResponse(status: nat, error: string)

  const NotFound := JsonResponse(404, "Route not found")

  /** What happens to a request: an immediate response, or handling by the matched route. */
  datatype Outcome = Respond(response: JsonResponse) | Handle(route: Route)

  /** `validate` up to the middleware call: 404 without a route. */
  function Validate(s: RouterState, req: Request, matchUrl: (string, string) -> bool): (o: Outcome)
    ensures o.Respond? <==> forall i :: 0 <= i < |s.routes| ==> !Hits(s.routes[i], req, matchUrl)
    ensures o.Respond? ==> o.response.status == 404 && o.response.error == "Route not found"
    ensures o.Handle? ==> Hits(o.route, req, matchUrl) && o.route in s.routes
  {
    match GetRoute(s.routes, req, matchUrl)
    case None => Respond(NotFound)
    case Some(route) => Handle(route)
  }

  /** `execute` up to the action call: 404 without a route. */
  function Execute(s: RouterState, req: Request, matchUrl: (string, string) -> bool): (o: Outcome)
    ensures o.Respond? <==> forall i :: 0 <= i < |s.routes| ==> !Hits(s.routes[i], req, matchUrl)
    ensures o.Respond? ==> o.response.status == 404 && o.response.error == "Route not found"
    ensures o.Handle? ==> Hits(o.route, req, matchUrl) && o.route in s.routes
  {
    match GetRoute(s.routes, req, matchUrl)
    case None => Respond(NotFound)
    case Some(route) => Handle(route)
  }

  /** `validate` and `execute` agree: the route that passed validation is the one executed. */
  lemma ValidateThenExecute(s: RouterState, req: Request, matchUrl: (string, string) -> bool)
    ensures Validate(s, req, matchUrl) == Execute(s, req, matchUrl)
    ensures Validate(s, req, matchUrl).Handle? ==> Validate(s, req, matchUrl).route == GetRoute(s.routes, req, matchUrl).value
  {
  }
}
