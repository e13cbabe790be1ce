/** Registration adds exactly the registered pattern to the routes the tree stores. */
module RouteTrieRoutes {
  import opened Common
  import opened RoutePattern
  import opened RouteTrie
  import opened RouteTrieShape

  ghost predicate AnyHas(ts: seq<Trie>, s: string, h: Handlers) {
    exists i :: 0 <= i < |ts| && HasRoute(ts[i], s, h)
  }

  lemma RouteOf(t: Trie, s: string, h: Handlers)
    ensures HasRoute(t, t.path + s, h) <==> (s == "" && t.handlers == Some(h)) || AnyHas(t.children, s, h)
  {
    assert (t.path + s)[|t.path|..] == s;
  }

  /** `new` stores what `old` stores, and `p` with handlers `h`. */
  ghost predicate Adds(before: Trie, after: Trie, p: string, h: Handlers) {
    forall q, g :: HasRoute(after, q, g) <==> HasRoute(before, q, g) || (q == p && g == h)
  }

  ghost predicate SameRoutes(a: Trie, b: Trie) {
    forall q, g :: HasRoute(a, q, g) <==> HasRoute(b, q, g)
  }

  // ---------------------------------------------------------------- reordering and splitting

  /** Counters play no part in what is stored. */
  lemma CountsDoNotMatter(t: Trie, p: nat, m: Uint8)
    ensures SameRoutes(t.(priority := p, maxParams := m), t)
  {
    forall q, g
      ensures HasRoute(t.(priority := p, maxParams := m), q, g) <==> HasRoute(t, q, g)
    {
    }
  }

  lemma SameChildrenSameRoutes(a: Trie, b: Trie)
    requires a.path == b.path && a.handlers == b.handlers
    requires forall s, g :: AnyHas(a.children, s, g) <==> AnyHas(b.children, s, g)
    ensures SameRoutes(a, b)
  {
    forall q, g ensures HasRoute(a, q, g) <==> HasRoute(b, q, g) {
      if a.path <= q {
        assert AnyHas(a.children, q[|a.path|..], g) <==> AnyHas(b.children, q[|a.path|..], g);
      }
    }
  }

  lemma MoveUpHas(ts: seq<Trie>, pos: nat, newPos: nat, s: string, g: Handlers)
    requires newPos <= pos < |ts|
    ensures AnyHas(MoveUp(ts, pos, newPos), s, g) <==> AnyHas(ts, s, g)
  {
    MoveUpAt(ts, pos, newPos);
    var ms := MoveUp(ts, pos, newPos);
    if AnyHas(ts, s, g) {
      var i :| 0 <= i < |ts| && HasRoute(ts[i], s, g);
      var q := if i == pos then newPos else if newPos <= i < pos then i + 1 else i;
      assert Source(pos, newPos, q) == i;
      assert HasRoute(ms[q], s, g);
    }
    if AnyHas(ms, s, g) {
      var q :| 0 <= q < |ms| && HasRoute(ms[q], s, g);
      assert HasRoute(ts[Source(pos, newPos, q)], s, g);
    }
  }

  /** Adding a route below one child adds it to the children as a whole. */
  lemma ReplaceHas(ts: seq<Trie>, pos: nat, c: Trie, p: string, h: Handlers, s: string, g: Handlers)
    requires pos < |ts| && Adds(ts[pos], c, p, h)
    ensures AnyHas(ts[pos := c], s, g) <==> AnyHas(ts, s, g) || (s == p && g == h)
  {
    var us := ts[pos := c];
    if AnyHas(ts, s, g) {
      var i :| 0 <= i < |ts| && HasRoute(ts[i], s, g);
      assert HasRoute(us[i], s, g);
    }
    if s == p && g == h { assert HasRoute(us[pos], s, g); }
    if AnyHas(us, s, g) {
      var i :| 0 <= i < |us| && HasRoute(us[i], s, g);
      assert i != pos ==> HasRoute(ts[i], s, g);
    }
  }

  lemma AddBelow(n: Trie, pos: nat, c: Trie, rest: string, h: Handlers)
    requires pos < |n.children| && Adds(n.children[pos], c, rest, h) && rest != ""
    ensures Adds(n, n.(children := n.children[pos := c]), n.path + rest, h)
  {
    var r := n.(children := n.children[pos := c]);
    forall q, g ensures HasRoute(r, q, g) <==> HasRoute(n, q, g) || (q == n.path + rest && g == h) {
      if n.path <= q {
        var s := q[|n.path|..];
        assert q == n.path + s;
        RouteOf(n, s, g);
        RouteOf(r, s, g);
        ReplaceHas(n.children, pos, c, rest, h, s, g);
      }
    }
  }

  lemma SplitSameRoutes(t: Trie, i: nat)
    requires i < |t.path| && t.priority > 0
    ensures SameRoutes(SplitEdge(t, i), t)
  {
    var n := SplitEdge(t, i);
    var child := n.children[0];
    forall q, g ensures HasRoute(n, q, g) <==> HasRoute(t, q, g) {
      if t.path[..i] <= q {
        var s := q[i..];
        assert t.path <= q <==> t.path[i..] <= s by {
          assert t.path == t.path[..i] + t.path[i..];
          assert q == q[..i] + s;
        }
        assert HasRoute(n, q, g) <==> HasRoute(child, s, g);
        if t.path <= q { assert s[|child.path|..] == q[|t.path|..]; }
      }
    }
  }

  lemma BumpSameRoutes(n: Trie, k: nat)
    requires k < |n.indices| <= |n.children|
    ensures SameRoutes(BumpChild(n, k).0, n)
  {
    var (b, p) := BumpChild(n, k);
    var c := n.children[k];
    CountsDoNotMatter(c, c.priority + 1, c.maxParams);
    forall s, g ensures AnyHas(b.children, s, g) <==> AnyHas(n.children, s, g) {
      MoveUpHas(n.children[k := Enter(c)], k, p, s, g);
      UpdateSame(n.children, k, Enter(c), s, g);
    }
    SameChildrenSameRoutes(b, n);
  }

  lemma UpdateSame(ts: seq<Trie>, k: nat, c: Trie, s: string, g: Handlers)
    requires k < |ts| && SameRoutes(c, ts[k])
    ensures AnyHas(ts[k := c], s, g) <==> AnyHas(ts, s, g)
  {
    var us := ts[k := c];
    assert HasRoute(us[k], s, g) <==> HasRoute(ts[k], s, g);
    if AnyHas(ts, s, g) {
      var i :| 0 <= i < |ts| && HasRoute(ts[i], s, g);
      assert HasRoute(us[i], s, g);
    }
    if AnyHas(us, s, g) {
      var i :| 0 <= i < |us| && HasRoute(us[i], s, g);
      assert HasRoute(ts[i], s, g);
    }
  }

  lemma AppendSameRoutes(n: Trie, c: char, numParams: Uint8)
    requires |n.indices| == |n.children|
    ensures SameRoutes(AppendChild(n, c, numParams).0, n)
  {
    var blank := EmptyTrie.(maxParams := numParams);
    var m := n.(indices := n.indices + [c], children := n.children + [blank]);
    BumpSameRoutes(m, |n.indices|);
    forall s, g ensures AnyHas(m.children, s, g) <==> AnyHas(n.children, s, g) {
      if AnyHas(n.children, s, g) {
        var i :| 0 <= i < |n.children| && HasRoute(n.children[i], s, g);
        assert HasRoute(m.children[i], s, g);
      }
      if AnyHas(m.children, s, g) {
        var i :| 0 <= i < |m.children| && HasRoute(m.children[i], s, g);
        assert !HasRoute(blank, s, g);
        assert HasRoute(n.children[i], s, g);
      }
    }
    SameChildrenSameRoutes(m, n);
    var a := AppendChild(n, c, numParams).0;
    assert forall q, g :: HasRoute(a, q, g) <==> HasRoute(m, q, g);
  }

  // ---------------------------------------------------------------- insertChild

  /** `t` stores the one route `p`. */
  ghost predicate Only(t: Trie, p: string, h: Handlers) {
    forall q, g :: HasRoute(t, q, g) <==> q == p && g == h
  }

  lemma OnlyChild(t: Trie, c: Trie, s: string, h: Handlers)
    requires t.children == [c] && t.handlers == None && Only(c, s, h)
    ensures Only(t, t.path + s, h)
  {
    forall q, g ensures HasRoute(t, q, g) <==> q == t.path + s && g == h {
      if t.path <= q {
        assert q == t.path + q[|t.path|..];
        assert HasRoute(t, q, g) <==> HasRoute(t.children[0], q[|t.path|..], g);
      }
    }
  }

  lemma LeafRoutes(t: Trie, h: Handlers)
    requires t.children == [] && t.handlers == Some(h)
    ensures Only(t, t.path, h)
  {
    forall q, g ensures HasRoute(t, q, g) <==> q == t.path && g == h {
      if t.path <= q { assert q == t.path + q[|t.path|..]; }
    }
  }

  lemma {:induction false} InsertFreshRoutes(t: Trie, numParams: Uint8, path: string, h: Handlers)
    requires FreshNode(t)
    ensures var r := InsertChild(t, numParams, path, h);
            r.Some? ==> Only(r.value, path, h)
    decreases |path|, 1
  {
    hide HasRoute;
    if numParams == 0 {
      LeafRoutes(InsertChild(t, numParams, path, h).value, h);
    } else if InsertChild(t, numParams, path, h).Some? {
      InsertFreshWildcard(t, numParams, path, h, FirstWild(path));
    }
  }

  lemma {:induction false} InsertFreshWildcard(t: Trie, numParams: Uint8, path: string, h: Handlers, i: nat)
    requires FreshNode(t) && numParams > 0 && i == FirstWild(path) && i < |path|
    requires InsertChild(t, numParams, path, h).Some?
    ensures Only(InsertChild(t, numParams, path, h).value, path, h)
    decreases |path|, 0, 1
  {
    hide HasRoute, InsertChild, Only;
    var r := InsertChild(t, numParams, path, h).value;
    if path[i] == ':' {
      InsertParamRoutes(t, numParams, path, h, i);
      OnlyChild(r, r.children[0], path[i..], h);
      assert r.path + path[i..] == path;
    } else {
      CatchAllInsert(t, numParams, path, h, i);
      CatchAllRoutes(r, path, i, h);
    }
  }

  lemma CatchAllRoutes(r: Trie, path: string, i: nat, h: Handlers)
    requires 0 < i <= |path| && r.path == path[..i - 1] && r.handlers == None && |r.children| == 1
    requires r.children[0] == Trie("", true, CatchAllNode, 1, "",
                                   [Trie(path[i - 1..], false, CatchAllNode, 1, "", [], Some(h), 1)], None, 1)
    ensures Only(r, path, h)
  {
    hide HasRoute, Only;
    var head := r.children[0];
    var leaf := head.children[0];
    LeafRoutes(leaf, h);
    OnlyChild(head, leaf, path[i - 1..], h);
    assert head.path + path[i - 1..] == path[i - 1..];
    OnlyChild(r, head, path[i - 1..], h);
    assert r.path + path[i - 1..] == path;
  }

  lemma CatchAllInsert(t: Trie, numParams: Uint8, path: string, h: Handlers, i: nat)
    requires numParams > 0 && i == FirstWild(path) && i < |path| && path[i] != ':'
    requires InsertChild(t, numParams, path, h).Some?
    ensures i > 0 && numParams == 1
    ensures InsertChild(t, numParams, path, h).value ==
            t.(path := path[..i - 1], indices := "/",
               children := [Trie("", true, CatchAllNode, 1, "",
                                 [Trie(path[i - 1..], false, CatchAllNode, 1, "", [], Some(h), 1)], None, 1)])
  {
  }

  /** The parameter node that insertChild hangs below `t` stores the pattern from the wildcard on. */
  lemma {:induction false} InsertParamRoutes(t: Trie, numParams: Uint8, path: string, h: Handlers, i: nat)
    requires numParams > 0 && i == FirstWild(path) && i < |path| && path[i] == ':'
    requires InsertChild(t, numParams, path, h).Some?
    ensures var r := InsertChild(t, numParams, path, h).value;
            && |r.children| == 1 && r.handlers == t.handlers
            && r.path == (if i > 0 then path[..i] else t.path)
            && Only(r.children[0], path[i..], h)
    decreases |path|, 0, 0
  {
    hide InsertChild, HasRoute;
    var end := WildEnd(path, i);
    if end < |path| {
      ParamWithRest(t, numParams, path, h, i);
      var blank := EmptyTrie.(maxParams := numParams - 1, priority := 1);
      InsertFreshRoutes(blank, numParams - 1, path[end..], h);
      var below := InsertChild(blank, numParams - 1, path[end..], h).value;
      ParamChildRoutes(Trie(path[i..end], false, ParamNode, numParams, "", [below], None, 1), below, path, i, end, h);
    } else {
      ParamWithoutRest(t, numParams, path, h, i);
      LeafRoutes(Trie(path[i..], false, ParamNode, numParams, "", [], Some(h), 1), h);
    }
  }

  lemma ParamChildRoutes(child: Trie, below: Trie, path: string, i: nat, end: nat, h: Handlers)
    requires i <= end <= |path| && child.path == path[i..end] && child.handlers == None
    requires child.children == [below] && Only(below, path[end..], h)
    ensures Only(child, path[i..], h)
  {
    OnlyChild(child, below, path[end..], h);
    assert path[i..end] + path[end..] == path[i..];
  }

  lemma ParamWithoutRest(t: Trie, numParams: Uint8, path: string, h: Handlers, i: nat)
    requires numParams > 0 && i == FirstWild(path) && i < |path| && path[i] == ':'
    requires InsertChild(t, numParams, path, h).Some? && WildEnd(path, i) == |path|
    ensures var r := InsertChild(t, numParams, path, h).value;
            && numParams == 1
            && r == t.(path := if i > 0 then path[..i] else t.path, wildChild := true,
                       children := [Trie(path[i..], false, ParamNode, numParams, "", [], Some(h), 1)])
  {
    assert path[i..|path|] == path[i..];
  }

  lemma ParamWithRest(t: Trie, numParams: Uint8, path: string, h: Handlers, i: nat)
    requires numParams > 0 && i == FirstWild(path) && i < |path| && path[i] == ':'
    requires InsertChild(t, numParams, path, h).Some? && WildEnd(path, i) < |path|
    ensures var r := InsertChild(t, numParams, path, h).value;
            var end := WildEnd(path, i);
            var below := InsertChild(EmptyTrie.(maxParams := numParams - 1, priority := 1), numParams - 1,
                                     path[end..], h);
            && below.Some?
            && r == t.(path := if i > 0 then path[..i] else t.path, wildChild := true,
                       children := [Trie(path[i..end], false, ParamNode, numParams, "", [below.value], None, 1)])
  {
  }

  // ---------------------------------------------------------------- the walk

  lemma SplitAtRoutes(entered: Trie, path: string, numParams: Uint8)
    requires entered.priority > 0
    ensures var n := SplitAt(RaiseMax(entered, numParams), path);
            && SameRoutes(n, entered)
            && n.path == path[..CommonPrefix(path, entered.path)]
  {
    var t := RaiseMax(entered, numParams);
    CountsDoNotMatter(entered, t.priority, t.maxParams);
    assert SameRoutes(t, entered);
    var i := CommonPrefix(path, t.path);
    if i < |t.path| {
      SplitSameRoutes(t, i);
      forall q, g ensures HasRoute(SplitEdge(t, i), q, g) <==> HasRoute(entered, q, g) {
        assert HasRoute(t, q, g) <==> HasRoute(entered, q, g);
      }
    } else {
      assert t.path[..i] == t.path;
    }
  }

  lemma LeafAdds(n: Trie, h: Handlers)
    requires n.handlers == None
    ensures Adds(n, n.(handlers := Some(h)), n.path, h)
  {
    var r := n.(handlers := Some(h));
    forall q, g ensures HasRoute(r, q, g) <==> HasRoute(n, q, g) || (q == n.path && g == h) {
      if n.path <= q {
        var s := q[|n.path|..];
        assert q == n.path + s;
        RouteOf(n, s, g);
        RouteOf(r, s, g);
      }
    }
  }

  /** Where the walk goes on, it has so far only reordered and recounted children. */
  lemma NextAtRoutes(n: Trie, rest: string, numParams: Uint8)
    requires rest != "" && Walkable(n)
    requires var m := NextAt(n, rest, numParams); m.Down? || m.HangBelow?
    ensures var m := NextAt(n, rest, numParams); SameRoutes(m.n, n) && m.n.path == n.path && m.rest == rest
  {
    var m := NextAt(n, rest, numParams);
    if n.wildChild || (n.nType.ParamNode? && rest[0] == '/' && |n.children| == 1) {
      var c := n.children[0];
      var w := m.n.children[0];
      CountsDoNotMatter(c, w.priority, w.maxParams);
      forall s, g ensures AnyHas(m.n.children, s, g) <==> AnyHas(n.children, s, g) {
        UpdateSame(n.children, 0, w, s, g);
        assert n.children[0 := w] == m.n.children;
      }
      SameChildrenSameRoutes(m.n, n);
    } else {
      var k := IndexOf(n.indices, rest[0]);
      if k < |n.indices| { BumpSameRoutes(n, k); } else { AppendSameRoutes(n, rest[0], numParams); }
    }
  }

  lemma DownAdds(n: Trie, m: Trie, pos: nat, c: Trie, rest: string, h: Handlers)
    requires SameRoutes(m, n) && m.path == n.path
    requires pos < |m.children| && Adds(m.children[pos], c, rest, h) && rest != ""
    ensures Adds(n, m.(children := m.children[pos := c]), n.path + rest, h)
  {
    AddBelow(m, pos, c, rest, h);
    var r := m.(children := m.children[pos := c]);
    forall q, g ensures HasRoute(r, q, g) <==> HasRoute(n, q, g) || (q == n.path + rest && g == h) {
      assert HasRoute(m, q, g) <==> HasRoute(n, q, g);
    }
  }

  lemma BlankHung(n: Trie, rest: string, numParams: Uint8)
    requires rest != "" && Passed(n, rest, numParams) && NextAt(n, rest, numParams).HangBelow?
    ensures var m := NextAt(n, rest, numParams); m.n.children[m.pos] == Enter(EmptyTrie.(maxParams := numParams))
  {
  }

  lemma OnlyAdds(blank: Trie, c: Trie, p: string, h: Handlers)
    requires FreshNode(blank) && Only(c, p, h)
    ensures Adds(blank, c, p, h)
  {
  }

  lemma HangBelowAdds(n: Trie, rest: string, numParams: Uint8, h: Handlers)
    requires rest != "" && Passed(n, rest, numParams)
    requires NextAt(n, rest, numParams).HangBelow?
    ensures var m := NextAt(n, rest, numParams);
            var r := WithChild(m.n, m.pos, InsertChild(m.n.children[m.pos], numParams, rest, h));
            r.Some? ==> Adds(n, r.value, n.path + rest, h)
  {
    hide HasRoute, InsertChild, Adds, SameRoutes, Shape;
    var m := NextAt(n, rest, numParams);
    NextAtRoutes(n, rest, numParams);
    var blank := m.n.children[m.pos];
    var c := InsertChild(blank, numParams, rest, h);
    BlankHung(n, rest, numParams);
    if c.Some? {
      InsertFreshRoutes(blank, numParams, rest, h);
      OnlyAdds(blank, c.value, rest, h);
      DownAdds(n, m.n, m.pos, c.value, rest, h);
    }
  }

  lemma HangHereAdds(n: Trie, rest: string, numParams: Uint8, h: Handlers)
    requires rest != "" && Passed(n, rest, numParams) && NextAt(n, rest, numParams).HangHere?
    ensures var r := InsertChild(n, numParams, rest, h);
            r.Some? ==> Adds(n, r.value, n.path + rest, h)
  {
    StaticHang(n, rest, numParams);
    var r := InsertChild(n, numParams, rest, h);
    if r.Some? {
      assert FirstWild(rest) == 0 && rest[0] == ':' && n.children == [];
      InsertParamRoutes(n, numParams, rest, h, 0);
      assert rest[0..] == rest;
      FirstChildAdds(n, r.value, rest, h);
    }
  }

  lemma FirstChildAdds(n: Trie, r: Trie, rest: string, h: Handlers)
    requires n.children == [] && |r.children| == 1 && r.path == n.path && r.handlers == n.handlers
    requires Only(r.children[0], rest, h)
    ensures Adds(n, r, n.path + rest, h)
  {
    forall q, g ensures HasRoute(r, q, g) <==> HasRoute(n, q, g) || (q == n.path + rest && g == h) {
      if n.path <= q {
        var s := q[|n.path|..];
        assert q == n.path + s;
        assert HasRoute(r.children[0], s, g) <==> s == rest && g == h;
        assert HasRoute(r, q, g) <==> (s == "" && r.handlers == Some(g)) || HasRoute(r.children[0], s, g);
      }
    }
  }

  /** The walk adds exactly the pattern it stores. */
  lemma {:induction false} WalkAdds(entered: Trie, path: string, numParams: Uint8, h: Handlers)
    requires Shape(entered) && entered.priority > 0 && Enterable(entered, path)
    requires Counted(entered, path, numParams)
    ensures var r := Walk(entered, path, numParams, h);
            r.Some? ==> Adds(entered, r.value, path, h)
    decreases Height(entered)
  {
    hide HasRoute, NextAt, Passed, Shape;
    var r := Walk(entered, path, numParams, h);
    if r.Some? {
      SplitKeepsShapeAt(entered, path, numParams);
      SplitAtRoutes(entered, path, numParams);
      var n := SplitAt(RaiseMax(entered, numParams), path);
      var i := CommonPrefix(path, entered.path);
      assert path == path[..i] + path[i..];
      if i == |path| {
        LeafAdds(n, h);
        AddsSame(entered, n, r.value, path, h);
      } else {
        var rest := path[i..];
        var m := NextAt(n, rest, numParams);
        match m
        case Down(_, _, _, _) =>
          NextGoesDown(entered, path, numParams);
          DownCountedAt(n, rest, numParams);
          WalkAdds(m.n.children[m.pos], m.rest, m.numParams, h);
          NextAtRoutes(n, rest, numParams);
          DownAdds(n, m.n, m.pos, Walk(m.n.children[m.pos], m.rest, m.numParams, h).value, rest, h);
          AddsSame(entered, n, r.value, path, h);
        case HangBelow(_, _, _) =>
          NextAtRoutes(n, rest, numParams);
          HangBelowAdds(n, rest, numParams, h);
          AddsSame(entered, n, r.value, path, h);
        case HangHere(_, _) =>
          StaticHang(n, rest, numParams);
          HangHereAdds(n, rest, numParams, h);
          AddsSame(entered, n, r.value, path, h);
      }
    }
  }

  lemma AddsSame(a: Trie, b: Trie, r: Trie, p: string, h: Handlers)
    requires SameRoutes(b, a) && Adds(b, r, p, h)
    ensures Adds(a, r, p, h)
  {
    forall q, g ensures HasRoute(r, q, g) <==> HasRoute(a, q, g) || (q == p && g == h) {
      assert HasRoute(b, q, g) <==> HasRoute(a, q, g);
    }
  }

  // ---------------------------------------------------------------- duplicates

  /** Everything stored at or below a node starts with its first byte. */
  lemma RouteFirst(t: Trie, s: string, g: Handlers)
    requires Shape(t) && HasRoute(t, s, g)
    ensures s != "" && s[0] == First(t)
  {
    if t.path == "" {
      var i :| 0 <= i < |t.children| && HasRoute(t.children[i], s, g);
      var c := t.children[i];
      if t.nType.StaticNode? {
        assert Shape(c) && CatchAllHead(c) && HasRoute(c.children[0], s, g);
        assert Shape(c.children[0]);
        LeafStartsWithSlash(c.children[0]);
      } else {
        LeafStartsWithSlash(c);
      }
    }
  }

  lemma LeafStartsWithSlash(leaf: Trie)
    requires LocalShape(leaf) && leaf.nType.CatchAllNode? && !leaf.wildChild
    ensures |leaf.path| >= 2 && leaf.path[0] == '/' && leaf.path[1] == '*'
  {
    assert leaf.path[..2][0] == '/' && leaf.path[..2][1] == '*';
  }

  /** A stored pattern is read off the path of a node and, if anything is left, one child. */
  lemma RouteCases(t: Trie, q: string, g: Handlers) returns (s: string, k: nat)
    requires Shape(t) && HasRoute(t, q, g)
    ensures q == t.path + s
    ensures s == "" ==> t.handlers == Some(g)
    ensures s != "" ==> k < |t.children| && HasRoute(t.children[k], s, g) && s[0] == First(t.children[k])
  {
    s := q[|t.path|..];
    k := 0;
    assert q == t.path + s;
    RouteOf(t, s, g);
    if AnyHas(t.children, s, g) {
      k :| 0 <= k < |t.children| && HasRoute(t.children[k], s, g);
      RouteFirst(t.children[k], s, g);
    }
  }

  /** What is stored below a node that holds a wildcard continues with '/'. */
  lemma BelowWildcard(w: Trie, q: string, g: Handlers)
    requires Shape(w) && HoldsWildcard(w) && HasRoute(w, q, g)
    ensures w.path <= q && (|w.path| == |q| || q[|w.path|] == '/')
  {
    var s, k := RouteCases(w, q, g);
    if s != "" { assert Indexed(w.children[0], '/'); }
  }

  lemma {:induction false} IndexOfDistinct(s: string, k: nat)
    requires k < |s| && forall i, j :: 0 <= i < j < |s| ==> s[i] != s[j]
    ensures IndexOf(s, s[k]) == k
  {
    if k > 0 {
      assert s[1..][k - 1] == s[k];
      IndexOfDistinct(s[1..], k - 1);
    }
  }

  lemma IndexOfChild(t: Trie, k: nat)
    requires LocalShape(t) && !t.wildChild && !t.nType.ParamNode? && k < |t.children|
    ensures |t.indices| == |t.children| && IndexOf(t.indices, First(t.children[k])) == k
  {
    if t.nType.StaticNode? {
      assert Indexed(t.children[k], t.indices[k]);
      IndexOfDistinct(t.indices, k);
    }
  }

  /** A pattern that is already stored below child `k` sends the walk down to that child. */
  lemma StoredGoesDown(n: Trie, rest: string, numParams: Uint8, g: Handlers, k: nat)
    requires Shape(n) && Walkable(n) && k < |n.children|
    requires rest != "" && HasRoute(n.children[k], rest, g) && rest[0] == First(n.children[k])
    ensures var m := NextAt(n, rest, numParams);
            m.Down? && m.rest == rest && m.pos < |m.n.children| && HasRoute(m.n.children[m.pos], rest, g)
  {
    var m := NextAt(n, rest, numParams);
    var c := n.children[k];
    if n.wildChild {
      BelowWildcard(c, rest, g);
      CountsDoNotMatter(c, m.n.children[0].priority, m.n.children[0].maxParams);
    } else if n.nType.ParamNode? {
      CountsDoNotMatter(c, c.priority + 1, c.maxParams);
    } else {
      IndexOfChild(n, k);
      CountsDoNotMatter(c, c.priority + 1, c.maxParams);
      assert m.n.children[m.pos] == Enter(c);
    }
  }

  /** Registering a pattern again is refused. */
  lemma {:induction false} WalkRefusesDuplicates(entered: Trie, path: string, numParams: Uint8, h: Handlers,
                                                 g: Handlers)
    requires Shape(entered) && entered.priority > 0 && Enterable(entered, path)
    requires HasRoute(entered, path, g)
    ensures Walk(entered, path, numParams, h) == None
    decreases Height(entered)
  {
    var s, k := RouteCases(entered, path, g);
    PrefixOf(entered.path, path);
    var n := RaiseMax(entered, numParams);
    assert SplitAt(n, path) == n;
    if s != "" {
      assert path[|entered.path|..] == s;
      EnterKeepsShape(entered, numParams);
      if !n.wildChild { IndicesFit(n); }
      StoredGoesDown(n, s, numParams, g, k);
      NextGoesDown(entered, path, numParams);
      var m := NextAt(n, s, numParams);
      WalkRefusesDuplicates(m.n.children[m.pos], m.rest, m.numParams, h, g);
    }
  }
}
