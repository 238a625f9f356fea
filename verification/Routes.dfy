/**
 The route table: routes in the order they were registered, indexed by pattern and method,
 and the decision what to do with a request. Which registered pattern a path selects is the
 router's business: `select` gives its index among the patterns, in order of registration.
 */
module Routes {
  import opened Bytes

  type Method = string

  const GET: Method := "GET"
  const HEAD: Method := "HEAD"

  datatype Route = Route(verb: Method, pattern: string)

  datatype Entry = Entry(verb: Method, route: nat)

  /**
   `key` is the pattern as the router reads it, `accepts` whether it takes one more pattern beside
   those it has, `select` the pattern it picks for a path.
   */
  datatype Router = Router(
    key: string -> string, accepts: (seq<string>, string) -> bool, select: (seq<string>, string) -> Option<nat>)

  /** The router selects one of the patterns it was given. */
  ghost predicate ValidRouter(r: Router) {
    forall keys, path :: r.select(keys, path).Some? ==> r.select(keys, path).value < |keys|
  }

  // ----- the table as a list -----

  /** The patterns in order of first registration. */
  function Keys(r: Router, routes: seq<Route>): seq<string>
    decreases |routes|
  {
    if routes == [] then []
    else
      var n := |routes| - 1;
      var before := Keys(r, routes[..n]);
      if r.key(routes[n].pattern) in before then before else before + [r.key(routes[n].pattern)]
  }

  /** The methods registered for a pattern, with their routes, in order. */
  function EntriesOf(r: Router, routes: seq<Route>, key: string): seq<Entry>
    decreases |routes|
  {
    if routes == [] then []
    else
      var n := |routes| - 1;
      EntriesOf(r, routes[..n], key) + (if r.key(routes[n].pattern) == key then [Entry(routes[n].verb, n)] else [])
  }

  function Lookup(entries: seq<Entry>, verb: Method): Option<nat>
    decreases |entries|
  {
    if entries == [] then None
    else if entries[0].verb == verb then Some(entries[0].route)
    else Lookup(entries[1..], verb)
  }

  /** The first registered route with this pattern and method: the plain linear scan. */
  ghost predicate FirstRoute(r: Router, routes: seq<Route>, key: string, verb: Method, i: nat) {
    && i < |routes| && r.key(routes[i].pattern) == key && routes[i].verb == verb
    && forall j :: 0 <= j < i ==> !(r.key(routes[j].pattern) == key && routes[j].verb == verb)
  }

  datatype Decision = Found(route: nat, headFallback: bool) | MethodNotAllowed(allow: seq<Method>) | NotFound

  class RouteTable {
    const router: Router
    var routes: seq<Route>
    var methodMaps: seq<seq<Entry>>
    var patternIndex: map<string, nat>
    /** The patterns the router was given, in order. */
    var inserted: seq<string>

    constructor (router: Router)
      requires ValidRouter(router)
      ensures this.router == router && Valid() && routes == []
    {
      this.router, routes, methodMaps, patternIndex, inserted := router, [], [], map[], [];
    }

    /** The index says exactly what the list of routes says. */
    ghost predicate Valid()
      reads this
    {
      && ValidRouter(router)
      && inserted == Keys(router, routes)
      && |methodMaps| == |inserted|
      && (forall k :: 0 <= k < |inserted| ==> methodMaps[k] == EntriesOf(router, routes, inserted[k]))
      && (forall k :: 0 <= k < |inserted| ==> inserted[k] in patternIndex && patternIndex[inserted[k]] == k)
      && (forall key :: key in patternIndex ==> patternIndex[key] < |inserted| && inserted[patternIndex[key]] == key)
    }

    /** A new pattern that the router refuses, as in conflict with another, is a panic. */
    method Push(route: Route) returns (panics: bool)
      requires Valid()
      modifies this
      ensures panics <==>
                var key, keys := router.key(route.pattern), Keys(router, old(routes));
                key !in keys && !router.accepts(keys, key)
      ensures !panics ==> Valid() && routes == old(routes) + [route]
    {
      var idx := |routes|;
      var key := router.key(route.pattern);
      ghost var before := routes;
      var all := routes + [route];
      assert all[..idx] == routes;
      forall k | 0 <= k < |inserted| && inserted[k] != key
        ensures EntriesOf(router, all, inserted[k]) == EntriesOf(router, routes, inserted[k])
      {
        assert EntriesOf(router, routes, inserted[k]) + [] == EntriesOf(router, routes, inserted[k]);
      }
      if key in patternIndex {
        var at := patternIndex[key];
        methodMaps := methodMaps[at := methodMaps[at] + [Entry(route.verb, idx)]];
      } else {
        NewKey(router, routes, key);
        patternIndex := patternIndex[key := |methodMaps|];
        methodMaps := methodMaps + [[Entry(route.verb, idx)]];
        if !router.accepts(inserted, key) {
          return true;
        }
        inserted := inserted + [key];
      }
      routes := all;
      panics := false;
    }

    method MatchRouteIdx(verb: Method, path: string) returns (r: Option<nat>)
      requires Valid()
      ensures r == RouteFor(router, routes, verb, path)
    {
      var selected := router.select(inserted, path);
      if selected.None? {
        return None;
      }
      r := Lookup(methodMaps[selected.value], verb);
    }

    method AnyRouteMatchesPath(path: string) returns (b: bool)
      requires Valid()
      ensures b == (Selected(router, routes, path) != [])
    {
      var selected := router.select(inserted, path);
      b := selected.Some? && methodMaps[selected.value] != [];
    }

    /** The registered methods of the selected pattern, and HEAD beside GET. */
    method AllowedMethods(path: string) returns (methods: seq<Method>)
      requires Valid()
      ensures methods == Allowed(Selected(router, routes, path))
    {
      var selected := router.select(inserted, path);
      if selected.None? {
        return [];
      }
      var entries := methodMaps[selected.value];
      methods := [];
      var i := 0;
      while i < |entries|
        invariant 0 <= i <= |entries|
        invariant methods == MethodsOf(entries[..i])
      {
        assert entries[..i + 1][..i] == entries[..i];
        methods := methods + [entries[i].verb];
        i := i + 1;
      }
      assert entries[..i] == entries;
      if GET in methods && HEAD !in methods {
        methods := methods + [HEAD];
      }
    }

    /** What is done with a request: the route, HEAD served by GET, 405, or 404. */
    method Dispatch(verb: Method, path: string) returns (d: Decision)
      requires Valid()
      ensures d == Decide(router, routes, verb, path)
    {
      var found := MatchRouteIdx(verb, path);
      var fallback := false;
      if found.None? && verb == HEAD {
        found := MatchRouteIdx(GET, path);
        fallback := true;
      }
      if found.Some? {
        return Found(found.value, fallback);
      }
      var known := AnyRouteMatchesPath(path);
      if known {
        var methods := AllowedMethods(path);
        return MethodNotAllowed(methods);
      }
      return NotFound;
    }
  }

  function MethodsOf(entries: seq<Entry>): seq<Method>
    decreases |entries|
  {
    if entries == [] then [] else MethodsOf(entries[..|entries| - 1]) + [entries[|entries| - 1].verb]
  }

  function Allowed(entries: seq<Entry>): seq<Method> {
    var methods := MethodsOf(entries);
    if GET in methods && HEAD !in methods then methods + [HEAD] else methods
  }

  /** The entries of the pattern that the path selects, if it selects any. */
  function Selected(r: Router, routes: seq<Route>, path: string): seq<Entry> {
    var keys := Keys(r, routes);
    var s := r.select(keys, path);
    if s.Some? && s.value < |keys| then EntriesOf(r, routes, keys[s.value]) else []
  }

  function RouteFor(r: Router, routes: seq<Route>, verb: Method, path: string): Option<nat> {
    Lookup(Selected(r, routes, path), verb)
  }

  function Decide(r: Router, routes: seq<Route>, verb: Method, path: string): Decision {
    var exact := RouteFor(r, routes, verb, path);
    var found := if exact.None? && verb == HEAD then RouteFor(r, routes, GET, path) else exact;
    if found.Some? then Found(found.value, exact.None?)
    else if Selected(r, routes, path) != [] then MethodNotAllowed(Allowed(Selected(r, routes, path)))
    else NotFound
  }

  // ----- the index is the linear scan -----

  lemma {:induction false} NewKey(r: Router, routes: seq<Route>, key: string)
    requires key !in Keys(r, routes)
    ensures EntriesOf(r, routes, key) == []
    decreases |routes|
  {
    if routes != [] {
      NewKey(r, routes[..|routes| - 1], key);
    }
  }

  lemma {:induction false} LookupPush(entries: seq<Entry>, e: Entry, verb: Method)
    ensures Lookup(entries + [e], verb) ==
            if Lookup(entries, verb).Some? then Lookup(entries, verb) else if e.verb == verb then Some(e.route) else None
    decreases |entries|
  {
    if entries == [] {
      assert (entries + [e])[1..] == [];
    } else {
      assert (entries + [e])[0] == entries[0] && (entries + [e])[1..] == entries[1..] + [e];
      LookupPush(entries[1..], e, verb);
    }
  }

  /** Looking a method up among a pattern's entries finds the first registered route, or none. */
  lemma {:induction false} LookupIsFirst(r: Router, routes: seq<Route>, key: string, verb: Method, i: nat)
    ensures Lookup(EntriesOf(r, routes, key), verb) == Some(i) <==> FirstRoute(r, routes, key, verb, i)
    decreases |routes|
  {
    if routes != [] {
      var n := |routes| - 1;
      var init := routes[..n];
      LookupIsFirst(r, init, key, verb, i);
      var entries := EntriesOf(r, init, key);
      LookupPush(entries, Entry(routes[n].verb, n), verb);
      assert entries + [] == entries;
      var found := Lookup(entries, verb);
      if found.Some? {
        LookupIsFirst(r, init, key, verb, found.value);
      } else {
        NoneBefore(r, init, key, verb);
      }
    }
  }

  lemma {:induction false} NoneBefore(r: Router, routes: seq<Route>, key: string, verb: Method)
    requires Lookup(EntriesOf(r, routes, key), verb).None?
    ensures forall j :: 0 <= j < |routes| ==> !(r.key(routes[j].pattern) == key && routes[j].verb == verb)
    decreases |routes|
  {
    if routes != [] {
      var n := |routes| - 1;
      var entries := EntriesOf(r, routes[..n], key);
      LookupPush(entries, Entry(routes[n].verb, n), verb);
      assert entries + [] == entries;
      NoneBefore(r, routes[..n], key, verb);
      assert forall j :: 0 <= j < n ==> routes[..n][j] == routes[j];
    }
  }

  /**
   Whatever was registered, and in whatever order: the index finds a route exactly if the path
   selects its pattern and it is the first route registered for that pattern and method.
   */
  lemma IndexIsLinearScan(r: Router, routes: seq<Route>, verb: Method, path: string, i: nat)
    requires ValidRouter(r)
    ensures var keys := Keys(r, routes);
            var s := r.select(keys, path);
            RouteFor(r, routes, verb, path) == Some(i) <==> s.Some? && FirstRoute(r, routes, keys[s.value], verb, i)
  {
    var keys := Keys(r, routes);
    var s := r.select(keys, path);
    if s.Some? {
      LookupIsFirst(r, routes, keys[s.value], verb, i);
    }
  }

  // ----- 405 and Allow -----

  lemma {:induction false} MethodsFound(entries: seq<Entry>, verb: Method)
    ensures verb in MethodsOf(entries) <==> Lookup(entries, verb).Some?
    decreases |entries|
  {
    if entries != [] {
      var n := |entries| - 1;
      MethodsFound(entries[..n], verb);
      assert entries == entries[..n] + [entries[n]];
      LookupPush(entries[..n], entries[n], verb);
    }
  }

  /** Sections 9.3.2 and 15.5.6 of RFC 9110: `Allow` lists exactly the methods that are served. */
  lemma AllowedIffServed(r: Router, routes: seq<Route>, verb: Method, path: string)
    ensures verb in Allowed(Selected(r, routes, path)) <==> Decide(r, routes, verb, path).Found?
  {
    var entries := Selected(r, routes, path);
    MethodsFound(entries, verb);
    MethodsFound(entries, GET);
    MethodsFound(entries, HEAD);
  }

  /** A 404 means that the path selects nothing, a 405 that it selects a pattern without the method. */
  lemma DecisionExact(r: Router, routes: seq<Route>, verb: Method, path: string)
    requires ValidRouter(r)
    ensures var d := Decide(r, routes, verb, path);
            && (d.NotFound? <==> r.select(Keys(r, routes), path).None?)
            && (d.MethodNotAllowed? ==> d.allow != [] && verb !in d.allow)
            && (d.Found? ==> d.route < |routes|)
            && (d.Found? && d.headFallback ==> verb == HEAD && routes[d.route].verb == GET)
            && (d.Found? && !d.headFallback ==> routes[d.route].verb == verb)
  {
    var keys := Keys(r, routes);
    var s := r.select(keys, path);
    AllowedIffServed(r, routes, verb, path);
    var d := Decide(r, routes, verb, path);
    if s.Some? {
      KeyHasEntries(r, routes, s.value);
      MethodsNotEmpty(Selected(r, routes, path));
      if d.Found? {
        LookupIsFirst(r, routes, keys[s.value], if d.headFallback then GET else verb, d.route);
      }
    }
  }

  /**
   A request is served by the first route registered for its method on the selected pattern, and
   HEAD by the first one for GET if there is none of its own; otherwise it is not served.
   */
  lemma ServedExact(r: Router, routes: seq<Route>, verb: Method, path: string, i: nat)
    requires ValidRouter(r)
    ensures var keys := Keys(r, routes);
            var s := r.select(keys, path);
            && (Decide(r, routes, verb, path) == Found(i, false) <==> s.Some? && FirstRoute(r, routes, keys[s.value], verb, i))
            && (Decide(r, routes, verb, path) == Found(i, true) <==>
                  && s.Some? && verb == "HEAD" && FirstRoute(r, routes, keys[s.value], "GET", i)
                  && forall j: nat :: !FirstRoute(r, routes, keys[s.value], "HEAD", j))
  {
    var keys := Keys(r, routes);
    var s := r.select(keys, path);
    if s.Some? {
      LookupIsFirst(r, routes, keys[s.value], verb, i);
      LookupIsFirst(r, routes, keys[s.value], GET, i);
      forall j: nat ensures Lookup(EntriesOf(r, routes, keys[s.value]), HEAD) == Some(j) <==>
                            FirstRoute(r, routes, keys[s.value], HEAD, j)
      {
        LookupIsFirst(r, routes, keys[s.value], HEAD, j);
      }
      hide FirstRoute, EntriesOf, Lookup;
      var own := RouteFor(r, routes, verb, path);
      if own.Some? {
        LookupIsFirst(r, routes, keys[s.value], verb, own.value);
      }
    }
  }

  /** The router gets each pattern once, in the order of first registration. */
  lemma {:induction false} KeysExact(r: Router, routes: seq<Route>, n: nat)
    requires n <= |routes|
    ensures forall i, j :: 0 <= i < j < |Keys(r, routes)| ==> Keys(r, routes)[i] != Keys(r, routes)[j]
    ensures forall key :: key in Keys(r, routes) <==> exists i :: 0 <= i < |routes| && r.key(routes[i].pattern) == key
    ensures Keys(r, routes[..n]) <= Keys(r, routes)
    decreases |routes|
  {
    if n == |routes| {
      assert routes[..n] == routes;
    }
    if routes != [] {
      var m := |routes| - 1;
      KeysExact(r, routes[..m], if n < |routes| then n else m);
      var before, key := Keys(r, routes[..m]), r.key(routes[m].pattern);
      if n < |routes| {
        assert routes[..m][..n] == routes[..n];
      }
      forall k ensures k in Keys(r, routes) <==> exists i :: 0 <= i < |routes| && r.key(routes[i].pattern) == k {
        if i :| 0 <= i < m && r.key(routes[..m][i].pattern) == k {
          assert r.key(routes[i].pattern) == k;
        }
        if i :| 0 <= i < |routes| && r.key(routes[i].pattern) == k {
          if i < m {
            assert r.key(routes[..m][i].pattern) == k;
          }
        }
      }
    }
  }

  lemma MethodsNotEmpty(entries: seq<Entry>)
    requires entries != []
    ensures MethodsOf(entries) != []
  {
  }

  lemma {:induction false} KeyHasEntries(r: Router, routes: seq<Route>, k: nat)
    requires k < |Keys(r, routes)|
    ensures EntriesOf(r, routes, Keys(r, routes)[k]) != []
    decreases |routes|
  {
    if routes != [] {
      var n := |routes| - 1;
      if k < |Keys(r, routes[..n])| {
        KeyHasEntries(r, routes[..n], k);
      }
    }
  }

  predicate DistinctMethods(methods: seq<Method>) {
    forall i, j :: 0 <= i < j < |methods| ==> methods[i] != methods[j]
  }

  /** `Allow` names a method twice exactly when it was registered twice for the pattern. */
  lemma AllowDistinctIff(entries: seq<Entry>)
    ensures DistinctMethods(Allowed(entries)) <==> forall i, j :: 0 <= i < j < |entries| ==> entries[i].verb != entries[j].verb
  {
    MethodsInOrder(entries);
    var methods := MethodsOf(entries);
    if GET in methods && HEAD !in methods {
      assert forall i :: 0 <= i < |methods| ==> Allowed(entries)[i] == methods[i] && methods[i] in methods;
    }
  }

  lemma {:induction false} MethodsInOrder(entries: seq<Entry>)
    ensures |MethodsOf(entries)| == |entries| && forall i :: 0 <= i < |entries| ==> MethodsOf(entries)[i] == entries[i].verb
    decreases |entries|
  {
    if entries != [] {
      MethodsInOrder(entries[..|entries| - 1]);
    }
  }

  lemma TwoGets()
    ensures var entries := [Entry(GET, 0), Entry(GET, 1)];
            Allowed(entries) == [GET, GET, HEAD] && Lookup(entries, "POST").None?
  {
    var entries := [Entry(GET, 0), Entry(GET, 1)];
    var first := [Entry(GET, 0)];
    assert entries[..1] == first && first[..0] == [];
    assert MethodsOf(first) == [GET] && MethodsOf(entries) == [GET, GET];
    assert |GET| == 3 && |HEAD| == 4 && |"POST"| == 4;
    MethodsFound(entries, "POST");
  }

  /** GET registered twice for a pattern: the answer to a POST allows GET, GET and HEAD. */
  lemma GetListedTwice(r: Router, pattern: string, path: string)
    requires r.select([r.key(pattern)], path) == Some(0)
    ensures var twice := [Route(GET, pattern), Route(GET, pattern)];
            Decide(r, twice, "POST", path) == MethodNotAllowed([GET, GET, HEAD])
  {
    var one, twice, key := [Route(GET, pattern)], [Route(GET, pattern), Route(GET, pattern)], r.key(pattern);
    assert one[..0] == [] && twice[..1] == one;
    assert Keys(r, one) == [key] && Keys(r, twice) == [key];
    assert EntriesOf(r, one, key) == [Entry(GET, 0)];
    assert EntriesOf(r, twice, key) == [Entry(GET, 0), Entry(GET, 1)];
    TwoGets();
    assert "POST"[0] != HEAD[0];
    hide EntriesOf, Lookup, Allowed, Keys;
    assert Selected(r, twice, path) == [Entry(GET, 0), Entry(GET, 1)];
  }
}
