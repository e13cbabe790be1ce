/** Lookup finds exactly the route whose pattern matches the request path. */
module RouteTrieLookup {
  import opened Common
  import opened RoutePattern
  import opened RouteTrie
  import opened RouteTrieShape
  import opened RouteTrieRoutes

  /** The pattern of the route at which the lookup of `path` stops. */
  ghost function FoundPattern(t: Trie, path: string): string
    requires Shape(t)
  {
    if |path| > |t.path| && t.path <= path then
      var rest := path[|t.path|..];
      if !t.wildChild then
        var k := IndexOf(t.indices, rest[0]);
        if k < |t.indices| then t.path + FoundPattern(t.children[k], rest) else t.path
      else
        var w := t.children[0];
        assert Shape(w);
        var end := SegmentEnd(rest);
        if w.nType.ParamNode? && end < |rest| && |w.children| > 0 then
          t.path + (w.path + FoundPattern(w.children[0], rest[end..]))
        else
          t.path + w.path
    else
      t.path
  }

  // ---------------------------------------------------------------- completeness and uniqueness

  /** A pattern that starts with a literal byte only matches paths that start with it. */
  lemma MatchFirst(s: string, path: string)
    requires s != "" && !IsWild(s[0]) && Match(s, path).Some?
    ensures path != "" && path[0] == s[0]
  {
  }

  /** What is stored below a child does not start with '*'. */
  lemma ChildNotStar(t: Trie, k: nat)
    requires Shape(t) && k < |t.children|
    ensures !CatchAllHead(t) ==> First(t.children[k]) != '*'
    ensures !t.wildChild ==> !IsWild(First(t.children[k]))
  {
    assert Shape(t.children[k]);
    if t.nType.StaticNode? && !t.wildChild {
      assert Indexed(t.children[k], t.indices[k]);
    }
  }

  predicate Stops(t: Trie) {
    !HoldsWildcard(t)
  }

  lemma FindsAtParam(t: Trie, w: Trie, s: string, g: Handlers, path: string)
    requires Shape(w) && w.nType.ParamNode? && HasRoute(w, s, g) && path != "" && Match(s, path).Some?
    ensures var end := SegmentEnd(path);
            var s' := s[|w.path|..];
            && w.path <= s && s == w.path + s'
            && Match(s', path[end..]).Some?
            && Match(s, path).value == [Param(w.path[1..], path[..end])] + Match(s', path[end..]).value
            && (s' == "" ==> end == |path| && w.handlers == Some(g))
            && (s' != "" ==> end < |path| && |w.children| == 1 && HasRoute(w.children[0], s', g))
  {
    hide HasRoute, Match;
    var s', k := RouteCases(w, s, g);
    assert s[|w.path|..] == s';
    BelowWildcard(w, s, g);
    MatchParam(w.path, s', path);
    MatchEmpty(s', path[SegmentEnd(path)..]);
    if s' != "" { assert ParamShape(w) && k == 0; }
  }

  /** Only the empty pattern matches the empty path. */
  lemma MatchEmpty(s: string, path: string)
    requires Match(s, path).Some?
    ensures s == "" <==> path == ""
  {
  }

  lemma FindsAtCatchAll(leaf: Trie, q: string, g: Handlers, path: string)
    requires Shape(leaf) && leaf.nType.CatchAllNode? && !leaf.wildChild
    requires HasRoute(leaf, q, g) && Match(q, path).Some?
    ensures q == leaf.path && leaf.handlers == Some(g) && path != ""
    ensures Match(q, path) == Some([Param(leaf.path[2..], path)])
  {
    LeafStartsWithSlash(leaf);
    var s, k := RouteCases(leaf, q, g);
    assert q[0] == '/' && q[1] == '*';
    if s != "" {
      BelowWildcard(leaf, q, g);
    }
  }

  /** If a stored pattern matches, the lookup stops at that route with its parameters. */
  lemma {:induction false} LookupFinds(t: Trie, q: string, g: Handlers, path: string, ps: seq<Param>)
    requires Shape(t) && Stops(t) && HasRoute(t, q, g) && Match(q, path).Some?
    ensures Lookup(t, path, ps) == Some((g, ps + Match(q, path).value))
    ensures q == FoundPattern(t, path)
    decreases t, 1
  {
    if CatchAllHead(t) {
      assert Shape(t.children[0]) && q[0..] == q && path[0..] == path;
      FindsAtCatchAll(t.children[0], q, g, path);
    } else {
      var s, k := RouteCases(t, q, g);
      if s != "" { ChildNotStar(t, k); }
      MatchLiteral(t.path, s, path);
      var rest := path[|t.path|..];
      if s == "" {
        assert path == t.path && ps + [] == ps;
      } else if t.wildChild {
        FindsBelowWild(t, s, g, path, ps);
      } else {
        MatchFirst(s, rest);
        IndexOfChild(t, k);
        LookupFinds(t.children[k], s, g, rest, ps);
      }
    }
  }

  lemma {:induction false} FindsBelowWild(t: Trie, s: string, g: Handlers, path: string, ps: seq<Param>)
    requires Shape(t) && t.nType.StaticNode? && t.wildChild && t.path <= path
    requires s != "" && HasRoute(t.children[0], s, g)
    requires Match(s, path[|t.path|..]).Some?
    ensures Lookup(t, path, ps) == Some((g, ps + Match(s, path[|t.path|..]).value))
    ensures t.path + s == FoundPattern(t, path)
    decreases t, 0
  {
    var w := t.children[0];
    var rest := path[|t.path|..];
    assert Shape(w) && rest != "";
    FindsAtParam(t, w, s, g, rest);
    var end := SegmentEnd(rest);
    var s' := s[|w.path|..];
    var ps' := ps + [Param(w.path[1..], rest[..end])];
    assert ps' + Match(s', rest[end..]).value == ps + Match(s, rest).value;
    if s' == "" {
      assert Match(s', rest[end..]).value == [] && ps' + [] == ps';
    } else {
      assert Indexed(w.children[0], '/');
      LookupFinds(w.children[0], s', g, rest[end..], ps');
    }
  }

  // ---------------------------------------------------------------- soundness

  lemma {:induction false} LookupSound(t: Trie, path: string, ps: seq<Param>)
    requires Shape(t) && Stops(t) && (CatchAllHead(t) ==> path != "" && path[0] == '/')
    requires Lookup(t, path, ps).Some?
    ensures var (g, qs) := Lookup(t, path, ps).value;
            var q := FoundPattern(t, path);
            HasRoute(t, q, g) && Match(q, path).Some? && qs == ps + Match(q, path).value
    decreases t, 1
  {
    var (g, qs) := Lookup(t, path, ps).value;
    var rest := path[|t.path|..];
    if |path| == |t.path| {
      RouteOf(t, "", g);
      assert t.path + "" == t.path;
      MatchLiteral(t.path, "", path);
    } else if t.wildChild && t.nType.CatchAllNode? {
      SoundAtCatchAll(t, path, ps);
    } else if t.wildChild {
      SoundBelowWild(t, path, ps);
    } else {
      var k := IndexOf(t.indices, rest[0]);
      var c := t.children[k];
      assert Shape(c) && Indexed(c, rest[0]);
      LookupSound(c, rest, ps);
      var s := FoundPattern(c, rest);
      SoundChild(t, k, s, g, path);
    }
  }

  lemma SoundChild(t: Trie, k: nat, s: string, g: Handlers, path: string)
    requires Shape(t) && t.nType.StaticNode? && k < |t.children|
    requires HasRoute(t.children[k], s, g) && t.path <= path && Match(s, path[|t.path|..]).Some?
    ensures HasRoute(t, t.path + s, g) && Match(t.path + s, path) == Match(s, path[|t.path|..])
  {
    RouteOf(t, s, g);
    ChildNotStar(t, k);
    RouteFirst(t.children[k], s, g);
    MatchLiteral(t.path, s, path);
  }

  lemma SoundAtCatchAll(t: Trie, path: string, ps: seq<Param>)
    requires Shape(t) && CatchAllHead(t) && path != "" && path[0] == '/'
    requires Lookup(t, path, ps).Some?
    ensures var (g, qs) := Lookup(t, path, ps).value;
            var q := FoundPattern(t, path);
            HasRoute(t, q, g) && Match(q, path).Some? && qs == ps + Match(q, path).value
  {
    var leaf := t.children[0];
    var g := leaf.handlers.value;
    assert Shape(leaf);
    LeafStartsWithSlash(leaf);
    assert path[0..] == path && t.path + leaf.path == leaf.path;
    RouteOf(leaf, "", g);
    assert leaf.path + "" == leaf.path;
    RouteOf(t, leaf.path, g);
    assert FinalCatchAll(leaf.path) by {
      SegmentEndConcat(leaf.path[2..], "");
      assert leaf.path[2..] + "" == leaf.path[2..];
    }
  }

  lemma {:induction false} SoundBelowWild(t: Trie, path: string, ps: seq<Param>)
    requires Shape(t) && t.nType.StaticNode? && t.wildChild && |path| > |t.path|
    requires Lookup(t, path, ps).Some?
    ensures var (g, qs) := Lookup(t, path, ps).value;
            var q := FoundPattern(t, path);
            HasRoute(t, q, g) && Match(q, path).Some? && qs == ps + Match(q, path).value
    decreases t, 0
  {
    var w := t.children[0];
    assert Shape(w);
    var rest := path[|t.path|..];
    var end := SegmentEnd(rest);
    if end < |rest| {
      var c := w.children[0];
      assert Shape(c) && Indexed(c, '/');
      LookupSound(c, rest[end..], ps + [Param(w.path[1..], rest[..end])]);
      var g := Lookup(t, path, ps).value.0;
      var s := FoundPattern(c, rest[end..]);
      RouteFirst(c, s, g);
      RouteOf(w, s, g);
      SoundParam(w, s, g, rest, ps);
      SoundChild(t, 0, w.path + s, g, path);
    } else {
      var g := w.handlers.value;
      RouteOf(w, "", g);
      assert w.path + "" == w.path && rest[end..] == "";
      SoundParam(w, "", g, rest, ps);
      SoundChild(t, 0, w.path, g, path);
    }
  }

  lemma SoundParam(w: Trie, s: string, g: Handlers, rest: string, ps: seq<Param>)
    requires Shape(w) && w.nType.ParamNode? && HasRoute(w, w.path + s, g) && rest != ""
    requires s == "" || s[0] == '/'
    requires Match(s, rest[SegmentEnd(rest)..]).Some?
    ensures Match(w.path + s, rest).Some?
    ensures var end := SegmentEnd(rest);
            ps + Match(w.path + s, rest).value == ps + [Param(w.path[1..], rest[..end])] + Match(s, rest[end..]).value
  {
    hide HasRoute, Match;
    MatchParam(w.path, s, rest);
  }

  // ---------------------------------------------------------------- wildcards sit where they may

  /** Every '*' of a stored pattern follows a '/'. */
  predicate StarsAfterSlash(s: string) {
    forall k :: 0 < k < |s| && s[k] == '*' ==> s[k - 1] == '/'
  }

  lemma StarsConcat(a: string, b: string)
    requires StarsAfterSlash(a) && StarsAfterSlash(b) && (b == "" || b[0] != '*')
    ensures StarsAfterSlash(a + b)
  {
    var s := a + b;
    forall k | 0 < k < |s| && s[k] == '*' ensures s[k - 1] == '/' {
      if k > |a| { assert b[k - |a|] == '*'; }
    }
  }

  lemma {:induction false} RouteStars(t: Trie, q: string, g: Handlers)
    requires Shape(t) && HasRoute(t, q, g)
    ensures StarsAfterSlash(q)
    decreases t
  {
    var s, k := RouteCases(t, q, g);
    OwnPathStars(t);
    if s != "" {
      RouteStars(t.children[k], s, g);
      if CatchAllHead(t) {
        assert q == s;
      } else {
        ChildNotStar(t, k);
      }
    }
    if !CatchAllHead(t) || s == "" { StarsConcat(t.path, s); }
  }

  lemma OwnPathStars(t: Trie)
    requires LocalShape(t)
    ensures StarsAfterSlash(t.path)
  {
    match t.nType
    case StaticNode =>
    case ParamNode =>
      assert forall k :: 1 <= k < |t.path| ==> t.path[k] == t.path[1..][k - 1];
    case CatchAllNode =>
      if !t.wildChild {
        LeafStartsWithSlash(t);
        assert forall k :: 2 <= k < |t.path| ==> t.path[k] == t.path[2..][k - 2];
      }
  }
}
