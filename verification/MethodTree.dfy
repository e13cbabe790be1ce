/**
 The tree of one HTTP method, as the engine uses it: routes go in one by one, requests are looked up.
 The list of registered routes is the whole specification.
 */
module MethodTree {
  import opened Common
  import opened RoutePattern
  import opened RouteTrie
  import opened RouteTrieShape
  import opened RouteTrieCounts
  import opened RouteTrieRoutes
  import opened CaseInsensitive
  import opened Router
  import opened RouterConflicts
  import opened RouterNode

  class Tree {
    var root: Node
    ghost var routes: seq<Route>

    ghost predicate Valid()
      reads this, root, root.Repr
    {
      && root.Valid() && this !in root.Repr
      && (if routes == [] then root.model == EmptyTrie else Represents(root.model, routes))
    }

    constructor ()
      ensures Valid() && routes == [] && fresh(root.Repr)
    {
      root := new Node.Blank(StaticNode, false, 0, 0);
      routes := [];
    }

    /** Engine.addRoute: false stands for a panic, after which nothing is promised. */
    method AddRoute(pattern: string, h: Handlers) returns (ok: bool)
      requires Valid() && CountWild(pattern) <= 255
      modifies root.Repr, `routes
      ensures root == old(root)
      ensures ok ==> Valid() && fresh(root.Repr - old(root.Repr)) && routes == old(routes) + [Route(pattern, h)]
      ensures ok <==> pattern != "" && pattern[0] == '/' && Acceptable(pattern, old(routes))
    {
      hide HasRoute, Shape, RouteTrie.AddRoute, Acceptable;
      if pattern == "" || pattern[0] != '/' {
        return false;
      }
      var r := Route(pattern, h);
      ghost var t := root.model;
      AddRouteIff(t, routes, r);
      if routes == [] { AddToEmpty(r); } else { AddToTree(t, r); }
      ok := root.AddRoute(pattern, h);
      if ok {
        if routes == [] {
          FirstRepresents(root.model, r);
          assert routes + [r] == [r];
        } else {
          NextRepresents(t, root.model, routes, r);
        }
        routes := routes + [r];
      }
    }

    /** Some registered route matches, or none does; found handlers and parameters are those of that route. */
    method GetValue(path: string, capacity: nat) returns (found: Option<Handlers>, params: seq<Param>)
      requires Valid() && routes != []
      ensures found.Some? ==> exists r :: r in routes && Answers(r, path, found.value, params)
      ensures found.None? ==> forall r :: r in routes ==> Match(r.pattern, path) == None
    {
      hide HasRoute, Shape, Match, Lookup;
      GetValueIsCorrect(root.model, routes, path);
      found, params := root.GetValue(path, capacity);
      if found.None? {
        forall r | r in routes ensures Match(r.pattern, path) == None {
          NoAnswerNoMatch(root.model, routes, path, r);
        }
      }
    }

    /** The request path in the spelling of a registered route, if one matches up to letter case. */
    method FixCase(path: string) returns (ciPath: string, found: bool)
      requires Valid() && routes != []
      ensures found <==> exists r :: r in routes && MatchFold(r.pattern, path).Some?
      ensures found ==> exists r :: r in routes && MatchFold(r.pattern, path) == Some(ciPath)
    {
      hide HasRoute, Shape, MatchFold, FindFold;
      FindFoldIsCorrect(root.model, routes, path);
      ciPath, found := root.FindCaseInsensitivePath(path);
    }
  }
}
