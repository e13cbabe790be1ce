/**
 The main results about the routing tree: whatever sequence of registrations was accepted,
 the tree behaves as the plain list of registered patterns.
 */
module Router {
  import opened Common
  import opened RoutePattern
  import opened RouteTrie
  import opened RouteTrieShape
  import opened RouteTrieRoutes
  import opened RouteTrieCounts
  import opened RouteTrieLookup
  import opened CaseInsensitive

  datatype Route = Route(pattern: string, handlers: Handlers)

  /** Engine.addRoute demands a leading '/'; countParams counts wildcards up to 255. */
  predicate Registrable(r: Route) {
    r.pattern != "" && r.pattern[0] == '/' && CountWild(r.pattern) <= 255
  }

  predicate AllRegistrable(routes: seq<Route>) {
    forall i :: 0 <= i < |routes| ==> Registrable(routes[i])
  }

  /** What holds of the tree of one method after at least one accepted registration. */
  ghost predicate TreeOk(t: Trie) {
    && RootShape(t)
    && PrioritiesOk(t)
    && ChildMaxParamsOk(t.children) && t.maxParams <= MaxOfMaxParams(t.children)
  }

  ghost predicate Distinct(routes: seq<Route>) {
    forall i, j :: 0 <= i < j < |routes| ==> routes[i].pattern != routes[j].pattern
  }

  /** The tree stores exactly the given routes, and their patterns are pairwise different. */
  ghost predicate Represents(t: Trie, routes: seq<Route>) {
    && TreeOk(t) && Distinct(routes)
    && forall q, g :: HasRoute(t, q, g) <==> Route(q, g) in routes
  }

  // ---------------------------------------------------------------- every run of registrations

  lemma AddToEmpty(r: Route)
    requires Registrable(r)
    ensures var t := AddRoute(EmptyTrie, r.pattern, r.handlers);
            t.Some? ==> TreeOk(t.value) && Only(t.value, r.pattern, r.handlers)
                        && t.value.maxParams == 0 && MaxOfMaxParams(t.value.children) == CountWild(r.pattern)
  {
    var (p, h) := (r.pattern, r.handlers);
    var root := Enter(EmptyTrie);
    var n := CountParams(p);
    InsertChildFreshShape(root, n, p, h);
    InsertFreshRoutes(root, n, p, h);
    InsertChildPriorities(root, n, p, h);
    InsertChildMaxParams(root, n, p, h);
    assert SumHandlers([]) == 0;
  }

  lemma AddToTree(t: Trie, r: Route)
    requires Registrable(r) && TreeOk(t)
    ensures var t' := AddRoute(t, r.pattern, r.handlers);
            t'.Some? ==> && TreeOk(t'.value) && Adds(t, t'.value, r.pattern, r.handlers)
                         && t'.value.maxParams == Max(t.maxParams, CountWild(r.pattern))
                         && MaxOfMaxParams(t'.value.children) == Max(MaxOfMaxParams(t.children), CountWild(r.pattern))
                         && forall g :: !HasRoute(t, r.pattern, g)
  {
    var (p, h) := (r.pattern, r.handlers);
    var e := Enter(t);
    var n := CountParams(p);
    EnterKeepsShape(t, n);
    CountsDoNotMatter(t, e.priority, t.maxParams);
    assert HandlersIn(e) == HandlersIn(t);
    assert t.path != "" || |t.children| > 0;
    if Walk(e, p, n, h).Some? {
      WalkKeepsShape(e, p, n, h);
      WalkAdds(e, p, n, h);
      WalkPriorities(e, p, n, h);
      WalkMaxParams(e, p, n, h);
      AddsSame(t, e, Walk(e, p, n, h).value, p, h);
      forall g ensures !HasRoute(t, p, g) {
        if HasRoute(t, p, g) {
          assert HasRoute(e, p, g);
          WalkRefusesDuplicates(e, p, n, h, g);
        }
      }
    }
  }

  lemma FirstRepresents(t: Trie, r: Route)
    requires TreeOk(t) && Only(t, r.pattern, r.handlers)
    ensures Represents(t, [r])
  {
    forall q, g ensures HasRoute(t, q, g) <==> Route(q, g) in [r] {
      assert HasRoute(t, q, g) <==> q == r.pattern && g == r.handlers;
    }
  }

  lemma NextRepresents(t: Trie, t': Trie, routes: seq<Route>, r: Route)
    requires Represents(t, routes) && TreeOk(t') && Adds(t, t', r.pattern, r.handlers)
    requires forall g :: !HasRoute(t, r.pattern, g)
    ensures Represents(t', routes + [r])
  {
    hide HasRoute, TreeOk;
    var all := routes + [r];
    forall q, g ensures HasRoute(t', q, g) <==> Route(q, g) in all {
      assert HasRoute(t', q, g) <==> HasRoute(t, q, g) || (q == r.pattern && g == r.handlers);
      assert HasRoute(t, q, g) <==> Route(q, g) in routes;
    }
    forall i | 0 <= i < |routes| ensures routes[i].pattern != r.pattern {
      assert routes[i] == Route(routes[i].pattern, routes[i].handlers);
      assert HasRoute(t, routes[i].pattern, routes[i].handlers);
    }
  }

  /** The tree after a run of registrations, or None if one of them panicked. */
  ghost function Build(routes: seq<Route>): (t: Option<Trie>)
    requires AllRegistrable(routes)
    ensures t.Some? && routes != [] ==> Represents(t.value, routes)
    ensures routes == [] ==> t == Some(EmptyTrie)
  {
    if routes == [] then Some(EmptyTrie) else
      var k := |routes| - 1;
      var r := routes[k];
      assert routes[..k] + [r] == routes;
      match Build(routes[..k])
      case None => None
      case Some(t) =>
        if k == 0 then
          AddToEmpty(r);
          var t' := AddRoute(t, r.pattern, r.handlers);
          if t'.Some? then FirstRepresents(t'.value, r); t' else None
        else
          AddToTree(t, r);
          var t' := AddRoute(t, r.pattern, r.handlers);
          if t'.Some? then NextRepresents(t, t'.value, routes[..k], r); t' else None
  }

  // ---------------------------------------------------------------- lookups in a represented tree

  /** The request path is answered by a route, in the plain sense of patterns. */
  ghost predicate Answers(r: Route, path: string, h: Handlers, ps: seq<Param>) {
    r.handlers == h && Match(r.pattern, path) == Some(ps)
  }

  /**
   getValue agrees with the list of patterns: it returns handlers and parameters exactly
   when a registered pattern matches, and then those of that pattern.
   */
  lemma GetValueIsCorrect(t: Trie, routes: seq<Route>, path: string)
    requires Represents(t, routes)
    ensures forall h: Handlers, ps: seq<Param> ::
              Lookup(t, path, []) == Some((h, ps)) <==> exists r :: r in routes && Answers(r, path, h, ps)
  {
    hide HasRoute, Shape, Match, Lookup, FoundPattern;
    forall h: Handlers, ps: seq<Param>
      ensures Lookup(t, path, []) == Some((h, ps)) <==> exists r :: r in routes && Answers(r, path, h, ps)
    {
      if Lookup(t, path, []) == Some((h, ps)) {
        LookupSound(t, path, []);
        var r := Route(FoundPattern(t, path), h);
        assert [] + Match(r.pattern, path).value == Match(r.pattern, path).value;
        assert r in routes && Answers(r, path, h, ps);
      }
      if r :| r in routes && Answers(r, path, h, ps) {
        assert r == Route(r.pattern, h);
        assert HasRoute(t, r.pattern, h);
        LookupFinds(t, r.pattern, h, path, []);
        assert [] + ps == ps;
      }
    }
  }

  lemma NoAnswerNoMatch(t: Trie, routes: seq<Route>, path: string, r: Route)
    requires Represents(t, routes) && Lookup(t, path, []) == None && r in routes
    ensures Match(r.pattern, path) == None
  {
    hide HasRoute, Shape, Match, Lookup, FoundPattern;
    assert r == Route(r.pattern, r.handlers) && HasRoute(t, r.pattern, r.handlers);
    if Match(r.pattern, path).Some? { LookupFinds(t, r.pattern, r.handlers, path, []); }
  }

  /** At most one of the registered patterns matches a request path. */
  lemma MatchIsUnique(t: Trie, routes: seq<Route>, a: Route, b: Route, path: string)
    requires Represents(t, routes)
    requires a in routes && b in routes && Match(a.pattern, path).Some? && Match(b.pattern, path).Some?
    ensures a == b
  {
    hide HasRoute, Shape, Match, Lookup, FoundPattern;
    assert Route(a.pattern, a.handlers) == a && Route(b.pattern, b.handlers) == b;
    LookupFinds(t, a.pattern, a.handlers, path, []);
    LookupFinds(t, b.pattern, b.handlers, path, []);
  }

  /**
   A registered route is found by some request exactly when its catch-all, if any, is its last
   segment.  The other direction shows a route that is accepted and never served.
   */
  lemma ReachableIffCatchAllLast(t: Trie, routes: seq<Route>, r: Route)
    requires Represents(t, routes) && r in routes
    ensures (exists path :: Lookup(t, path, []).Some? && FoundPattern(t, path) == r.pattern) <==>
            CatchAllIsLast(r.pattern)
  {
    hide HasRoute, Shape, Match, Lookup, FoundPattern, CatchAllIsLast, Witness;
    assert r == Route(r.pattern, r.handlers) && HasRoute(t, r.pattern, r.handlers);
    if CatchAllIsLast(r.pattern) {
      RouteStars(t, r.pattern, r.handlers);
      RouteFirst(t, r.pattern, r.handlers);
      WitnessMatches(r.pattern);
      LookupFinds(t, r.pattern, r.handlers, Witness(r.pattern), []);
    }
    if path :| Lookup(t, path, []).Some? && FoundPattern(t, path) == r.pattern {
      LookupSound(t, path, []);
      MatchNeedsCatchAllLast(r.pattern, path);
    }
  }

  /** The case-insensitive lookup answers exactly when some route matches up to case, with such a route's spelling. */
  lemma FindFoldIsCorrect(t: Trie, routes: seq<Route>, path: string)
    requires Represents(t, routes)
    ensures FindFold(t, path).Some? <==> exists r :: r in routes && MatchFold(r.pattern, path).Some?
    ensures FindFold(t, path).Some? ==> exists r :: r in routes && MatchFold(r.pattern, path) == FindFold(t, path)
  {
    hide HasRoute, Shape, MatchFold, FindFold;
    if FindFold(t, path).Some? {
      var q, g := FindFoldSound(t, path);
      assert Route(q, g) in routes && MatchFold(Route(q, g).pattern, path) == FindFold(t, path);
    }
    if r :| r in routes && MatchFold(r.pattern, path).Some? {
      assert r == Route(r.pattern, r.handlers) && HasRoute(t, r.pattern, r.handlers);
      FindFoldFinds(t, r.pattern, r.handlers, path);
    }
  }

  /**
   With routes free of wildcards: found exactly when a route equals the path up to case, and the answer is such a
   route.
   */
  lemma FindFoldOnStaticRoutes(t: Trie, routes: seq<Route>, path: string)
    requires Represents(t, routes) && forall r :: r in routes ==> NoWild(r.pattern)
    ensures FindFold(t, path).Some? <==> exists r :: r in routes && EqualFold(r.pattern, path)
    ensures FindFold(t, path).Some? ==>
              exists r :: r in routes && EqualFold(r.pattern, path) && FindFold(t, path) == Some(r.pattern)
  {
    hide HasRoute, Shape, MatchFold, FindFold, Represents, EqualFold, NoWild;
    FindFoldIsCorrect(t, routes, path);
    forall r | r in routes
      ensures MatchFold(r.pattern, path).Some? <==> EqualFold(r.pattern, path)
      ensures EqualFold(r.pattern, path) ==> MatchFold(r.pattern, path) == Some(r.pattern)
    {
      FoldStatic(r.pattern, path);
    }
  }

  // ---------------------------------------------------------------- the invariants a maintainer reads off the tree

  /** Every index byte is the first byte of all that is stored below its child. */
  lemma IndexIsFirstByte(t: Trie, i: nat, s: string, g: Handlers)
    requires Shape(t) && !t.wildChild && i < |t.indices| && HasRoute(t.children[i], s, g)
    ensures s != "" && s[0] == t.indices[i]
  {
    IndexedChild(t, i);
    RouteFirst(t.children[i], s, g);
  }

  /** The largest wildcard count among some routes. */
  function LargestCount(routes: seq<Route>): nat {
    if routes == [] then 0 else Max(LargestCount(routes[..|routes| - 1]), CountWild(routes[|routes| - 1].pattern))
  }

  /**
   maxParams is exact below the root.  At the root it misses the first registration,
   which insertChild performs without raising it.
   */
  lemma {:induction false} RootMaxParams(routes: seq<Route>)
    requires AllRegistrable(routes) && routes != [] && Build(routes).Some?
    ensures var t := Build(routes).value;
            && t.maxParams == LargestCount(routes[1..])
            && MaxOfMaxParams(t.children) == LargestCount(routes)
  {
    hide AddRoute, HasRoute, Shape, PrioritiesOk, ChildMaxParamsOk, MaxOfMaxParams, CountWild;
    var k := |routes| - 1;
    var r := routes[k];
    if k == 0 {
      AddToEmpty(r);
    } else {
      RootMaxParams(routes[..k]);
      AddToTree(Build(routes[..k]).value, r);
      assert routes[1..][..k - 1] == routes[..k][1..];
    }
  }
}
