/** The case-insensitive lookup, for ASCII paths and without trailing-slash fixing. */
module CaseInsensitive {
  import opened Common
  import opened RoutePattern
  import opened RouteTrie
  import opened RouteTrieShape
  import opened RouteTrieRoutes
  import opened RouteTrieLookup

  /** ToLower on ASCII. */
  function Lower(c: char): char {
    if 'A' <= c <= 'Z' then c - 'A' + 'a' else c
  }

  /** Two bytes agree up to case if they are equal, or the two cases of one ASCII letter, which lie 32 apart. */
  lemma LowerAlike(c: char, d: char)
    ensures Lower(c) == Lower(d) <==>
            || c == d
            || ('A' <= c <= 'Z' && d as int == c as int + 32)
            || ('A' <= d <= 'Z' && c as int == d as int + 32)
  {
  }

  /** Equal up to letter case. */
  predicate EqualFold(a: string, b: string) {
    |a| == |b| && forall k :: 0 <= k < |a| ==> Lower(a[k]) == Lower(b[k])
  }

  predicate FoldPrefix(a: string, path: string) {
    |path| >= |a| && EqualFold(path[..|a|], a)
  }

  /** Match with literal bytes compared up to case; the result is the path with those bytes corrected. */
  function MatchFold(pat: string, path: string): Option<string>
    decreases |pat|
  {
    if pat == "" then
      if path == "" then Some("") else None
    else if path == "" then
      None
    else if pat[0] == ':' then
      var name := 1 + SegmentEnd(pat[1..]);
      var end := SegmentEnd(path);
      Prepend(path[..end], MatchFold(pat[name..], path[end..]))
    else if |pat| >= 2 && pat[0] == '/' && pat[1] == '*' then
      if FinalCatchAll(pat) && path[0] == '/' then Some(path) else None
    else if Lower(pat[0]) == Lower(path[0]) then
      Prepend([pat[0]], MatchFold(pat[1..], path[1..]))
    else
      None
  }

  function Prepend(a: string, r: Option<string>): Option<string> {
    match r
    case None => None
    case Some(s) => Some(a + s)
  }

  // ---------------------------------------------------------------- findCaseInsensitivePath

  function FindFold(t: Trie, path: string): Option<string>
    requires Shape(t)
    decreases t, 1, 0
  {
    if !FoldPrefix(t.path, path) then None else
      var rest := path[|t.path|..];
      if rest == "" then
        if t.handlers.Some? then Some(t.path) else None
      else if !t.wildChild then
        IndicesFit(t);
        Prepend(t.path, FindAmong(t, 0, rest))
      else
        var w := t.children[0];
        assert Shape(w);
        if w.nType.ParamNode? then
          var k := SegmentEnd(rest);
          if k == |rest| then
            if w.handlers.Some? then Some(t.path + rest) else None
          else if |w.children| > 0 then
            Prepend(t.path + rest[..k], FindFold(w.children[0], rest[k..]))
          else None
        else Some(t.path + rest)
  }

  /** The first child from `i` on whose index byte agrees up to case and below which the path is found. */
  function FindAmong(t: Trie, i: nat, rest: string): Option<string>
    requires Shape(t) && rest != "" && i <= |t.indices| <= |t.children|
    decreases t, 0, |t.indices| - i
  {
    if i == |t.indices| then None
    else if Lower(rest[0]) == Lower(t.indices[i]) && FindFold(t.children[i], rest).Some? then
        FindFold(t.children[i], rest)
    else FindAmong(t, i + 1, rest)
  }

  // ---------------------------------------------------------------- facts about MatchFold

  lemma {:induction false} FoldLiteral(u: string, s: string, path: string)
    requires NoWild(u) && (s == "" || s[0] != '*')
    ensures FoldPrefix(u, path) ==> MatchFold(u + s, path) == Prepend(u, MatchFold(s, path[|u|..]))
    ensures !FoldPrefix(u, path) ==> MatchFold(u + s, path) == None
  {
    if u == "" {
      assert u + s == s && path[0..] == path && path[..0] == "";
      match MatchFold(s, path) case None => case Some(x) => assert "" + x == x;
    } else {
      var pat := u + s;
      assert pat[0] == u[0] && pat[1..] == u[1..] + s;
      if |u| == 1 && s != "" { assert pat[1] == s[0]; }
      if path != "" && Lower(path[0]) == Lower(u[0]) {
        FoldLiteral(u[1..], s, path[1..]);
        FoldPrefixStep(u, path);
        if FoldPrefix(u, path) {
          assert path[1..][|u[1..]|..] == path[|u|..];
          PrependTwice([u[0]], u[1..], MatchFold(s, path[|u|..]));
          assert [u[0]] + u[1..] == u;
        }
      }
    }
  }

  lemma FoldPrefixStep(u: string, path: string)
    requires u != "" && path != "" && Lower(path[0]) == Lower(u[0])
    ensures FoldPrefix(u, path) <==> FoldPrefix(u[1..], path[1..])
  {
    if |path| >= |u| {
      var a, b := path[..|u|], path[1..][..|u[1..]|];
      assert forall k :: 0 <= k < |b| ==> b[k] == a[k + 1] && u[1..][k] == u[k + 1];
      assert forall k :: 1 <= k < |a| ==> a[k] == b[k - 1] && u[k] == u[1..][k - 1];
    }
  }

  lemma PrependTwice(a: string, b: string, r: Option<string>)
    ensures Prepend(a, Prepend(b, r)) == Prepend(a + b, r)
  {
    if r.Some? { assert a + (b + r.value) == a + b + r.value; }
  }

  lemma FoldParam(w: string, s: string, path: string)
    requires |w| >= 1 && w[0] == ':' && '/' !in w[1..]
    requires s == "" || s[0] == '/'
    requires path != ""
    ensures var end := SegmentEnd(path);
            MatchFold(w + s, path) == Prepend(path[..end], MatchFold(s, path[end..]))
  {
    SegmentEndConcat(w[1..], s);
    assert (w + s)[1..] == w[1..] + s;
    assert (w + s)[|w|..] == s;
  }

  lemma FoldEmpty(s: string, path: string)
    requires MatchFold(s, path).Some?
    ensures s == "" <==> path == ""
  {
  }

  lemma FoldFirst(s: string, path: string)
    requires s != "" && !IsWild(s[0]) && MatchFold(s, path).Some?
    ensures path != "" && Lower(path[0]) == Lower(s[0])
  {
  }

  /** A route without wildcards matches exactly the paths equal to it up to case, and is then the answer. */
  lemma FoldStatic(q: string, path: string)
    requires NoWild(q)
    ensures MatchFold(q, path).Some? <==> EqualFold(q, path)
    ensures EqualFold(q, path) ==> MatchFold(q, path) == Some(q)
  {
    FoldLiteral(q, "", path);
    assert q + "" == q;
    if |path| >= |q| { assert path[..|q|] == path <==> |path| == |q|; }
    if EqualFold(q, path) { assert path[..|q|] == path; }
  }

  // ---------------------------------------------------------------- completeness

  lemma {:induction false} FindFoldFinds(t: Trie, q: string, g: Handlers, path: string)
    requires Shape(t) && Stops(t) && HasRoute(t, q, g) && MatchFold(q, path).Some?
    ensures FindFold(t, path).Some?
    decreases t, 1
  {
    hide HasRoute;
    if CatchAllHead(t) {
      assert Shape(t.children[0]) && path[0..] == path && path[..0] == "";
      FoldEmpty(q, path);
      RouteFirst(t, q, g);
    } else {
      var s, k := RouteCases(t, q, g);
      if s != "" { ChildNotStar(t, k); }
      FoldLiteral(t.path, s, path);
      var rest := path[|t.path|..];
      FoldEmpty(s, rest);
      if s != "" {
        if t.wildChild {
          FoldBelowWild(t, s, g, path);
        } else {
          FoldFirst(s, rest);
          IndexOfChild(t, k);
          FindFoldFinds(t.children[k], s, g, rest);
          AmongFinds(t, 0, k, rest);
        }
      }
    }
  }

  lemma {:induction false} AmongFinds(t: Trie, i: nat, k: nat, rest: string)
    requires Shape(t) && !t.wildChild && rest != "" && i <= k < |t.indices| && |t.indices| <= |t.children|
    requires Lower(rest[0]) == Lower(t.indices[k]) && FindFold(t.children[k], rest).Some?
    ensures FindAmong(t, i, rest).Some?
    decreases k - i
  {
    hide FindFold, Shape;
    if i < k { AmongFinds(t, i + 1, k, rest); }
  }

  lemma {:induction false} FoldBelowWild(t: Trie, s: string, g: Handlers, path: string)
    requires Shape(t) && t.nType.StaticNode? && t.wildChild && FoldPrefix(t.path, path)
    requires s != "" && HasRoute(t.children[0], s, g)
    requires MatchFold(s, path[|t.path|..]).Some?
    ensures FindFold(t, path).Some?
    decreases t, 0
  {
    var w := t.children[0];
    var rest := path[|t.path|..];
    assert Shape(w);
    FoldEmpty(s, rest);
    hide HasRoute, MatchFold;
    var s', k := RouteCases(w, s, g);
    BelowWildcard(w, s, g);
    FoldParam(w.path, s', rest);
    var end := SegmentEnd(rest);
    FoldEmpty(s', rest[end..]);
    if s' != "" {
      assert Shape(w.children[0]) && Indexed(w.children[0], '/');
      FindFoldFinds(w.children[0], s', g, rest[end..]);
    }
  }

  // ---------------------------------------------------------------- soundness

  lemma {:induction false} FindFoldSound(t: Trie, path: string) returns (q: string, g: Handlers)
    requires Shape(t) && Stops(t) && (CatchAllHead(t) ==> path != "" && path[0] == '/')
    requires FindFold(t, path).Some?
    ensures HasRoute(t, q, g) && MatchFold(q, path) == FindFold(t, path)
    decreases t, 1
  {
    var rest := path[|t.path|..];
    if rest == "" {
      q, g := t.path, t.handlers.value;
      RouteOf(t, "", g);
      assert t.path + "" == t.path;
      FoldLiteral(t.path, "", path);
    } else if t.wildChild && t.nType.CatchAllNode? {
      q, g := FoldAtCatchAll(t, path);
    } else if t.wildChild {
      q, g := FoldSoundBelowWild(t, path);
    } else {
      IndicesFit(t);
      var k := AmongSound(t, 0, rest);
      var c := t.children[k];
      IndexedChild(t, k);
      var s;
      s, g := FindFoldSound(c, rest);
      q := t.path + s;
      FoldSoundChild(t, k, s, g, path);
    }
  }

  lemma {:induction false} AmongSound(t: Trie, i: nat, rest: string) returns (k: nat)
    requires Shape(t) && !t.wildChild && rest != "" && i <= |t.indices| <= |t.children|
    requires FindAmong(t, i, rest).Some?
    ensures k < |t.indices| && Lower(rest[0]) == Lower(t.indices[k])
    ensures FindFold(t.children[k], rest) == FindAmong(t, i, rest)
    decreases |t.indices| - i
  {
    hide FindFold;
    if Lower(rest[0]) == Lower(t.indices[i]) && FindFold(t.children[i], rest).Some? {
      k := i;
    } else {
      k := AmongSound(t, i + 1, rest);
    }
  }

  lemma FoldSoundChild(t: Trie, k: nat, s: string, g: Handlers, path: string)
    requires Shape(t) && t.nType.StaticNode? && k < |t.children|
    requires HasRoute(t.children[k], s, g) && FoldPrefix(t.path, path)
    ensures HasRoute(t, t.path + s, g)
    ensures MatchFold(t.path + s, path) == Prepend(t.path, MatchFold(s, path[|t.path|..]))
  {
    RouteOf(t, s, g);
    ChildNotStar(t, k);
    RouteFirst(t.children[k], s, g);
    FoldLiteral(t.path, s, path);
  }

  lemma FoldAtCatchAll(t: Trie, path: string) returns (q: string, g: Handlers)
    requires Shape(t) && CatchAllHead(t) && path != "" && path[0] == '/'
    ensures HasRoute(t, q, g) && MatchFold(q, path) == FindFold(t, path)
  {
    var leaf := t.children[0];
    assert Shape(leaf);
    q, g := leaf.path, leaf.handlers.value;
    LeafStartsWithSlash(leaf);
    RouteOf(leaf, "", g);
    assert leaf.path + "" == leaf.path && "" + leaf.path == leaf.path;
    RouteOf(t, leaf.path, g);
    assert FinalCatchAll(q) by { SegmentEndConcat(q[2..], ""); assert q[2..] + "" == q[2..]; }
    assert path[0..] == path && path[..0] == "" && "" + path == path;
  }

  lemma {:induction false} FoldSoundBelowWild(t: Trie, path: string) returns (q: string, g: Handlers)
    requires Shape(t) && t.nType.StaticNode? && t.wildChild && |path| > |t.path|
    requires FindFold(t, path).Some?
    ensures HasRoute(t, q, g) && MatchFold(q, path) == FindFold(t, path)
    decreases t, 0
  {
    var w := t.children[0];
    assert Shape(w);
    var rest := path[|t.path|..];
    var end := SegmentEnd(rest);
    var s;
    if end < |rest| {
      var c := w.children[0];
      assert Shape(c) && Indexed(c, '/');
      s, g := FindFoldSound(c, rest[end..]);
      RouteFirst(c, s, g);
      PrependTwice(t.path, rest[..end], MatchFold(s, rest[end..]));
    } else {
      s, g := "", w.handlers.value;
      assert rest[..end] + "" == rest;
    }
    hide MatchFold, HasRoute;
    q := t.path + (w.path + s);
    RouteOf(w, s, g);
    FoldParam(w.path, s, rest);
    FoldSoundChild(t, 0, w.path + s, g, path);
  }
}
