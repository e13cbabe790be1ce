/** The counters kept in the nodes: priorities and maxParams. */
module RouteTrieCounts {
  import opened Common
  import opened RoutePattern
  import opened RouteTrie
  import opened RouteTrieShape
  import opened RouteTrieRoutes

  // ---------------------------------------------------------------- priorities

  /** The number of handlers stored at or below a node. */
  function HandlersIn(t: Trie): nat {
    (if t.handlers.Some? then 1 else 0) + SumHandlers(t.children)
  }

  function SumHandlers(ts: seq<Trie>): nat {
    if ts == [] then 0 else HandlersIn(ts[0]) + SumHandlers(ts[1..])
  }

  predicate Ordered(ts: seq<Trie>) {
    forall i, j :: 0 <= i < j < |ts| ==> ts[i].priority >= ts[j].priority
  }

  /** Every priority counts the handlers below it, and children come in falling priority. */
  predicate PrioritiesOk(t: Trie) {
    t.priority == HandlersIn(t) && ChildPrioritiesOk(t.children)
  }

  predicate ChildPrioritiesOk(ts: seq<Trie>) {
    Ordered(ts) && forall i :: 0 <= i < |ts| ==> PrioritiesOk(ts[i])
  }

  lemma {:induction false} SumConcat(a: seq<Trie>, b: seq<Trie>)
    ensures SumHandlers(a + b) == SumHandlers(a) + SumHandlers(b)
  {
    if a == [] {
      assert a + b == b;
    } else {
      assert (a + b)[1..] == a[1..] + b;
      SumConcat(a[1..], b);
    }
  }

  lemma SumMoveUp(ts: seq<Trie>, pos: nat, newPos: nat)
    requires newPos <= pos < |ts|
    ensures SumHandlers(MoveUp(ts, pos, newPos)) == SumHandlers(ts)
  {
    var a, b, c, d := ts[..newPos], ts[newPos..pos], [ts[pos]], ts[pos + 1..];
    MoveUpParts(ts, pos, newPos);
    SumFour(a, b, c, d);
    SumFour(a, c, b, d);
  }

  /** MoveUp exchanges two neighbouring pieces. */
  lemma MoveUpParts<T>(s: seq<T>, pos: nat, newPos: nat)
    requires newPos <= pos < |s|
    ensures s == s[..newPos] + (s[newPos..pos] + ([s[pos]] + s[pos + 1..]))
    ensures MoveUp(s, pos, newPos) == s[..newPos] + ([s[pos]] + (s[newPos..pos] + s[pos + 1..]))
  {
  }

  lemma SumFour(a: seq<Trie>, b: seq<Trie>, c: seq<Trie>, d: seq<Trie>)
    ensures SumHandlers(a + (b + (c + d))) == SumHandlers(a) + SumHandlers(b) + SumHandlers(c) + SumHandlers(d)
  {
    SumConcat(a, b + (c + d));
    SumConcat(b, c + d);
    SumConcat(c, d);
  }

  lemma {:induction false} SumUpdate(ts: seq<Trie>, k: nat, c: Trie)
    requires k < |ts|
    ensures SumHandlers(ts[k := c]) + HandlersIn(ts[k]) == SumHandlers(ts) + HandlersIn(c)
  {
    if k == 0 {
      assert ts[k := c][1..] == ts[1..];
    } else {
      assert ts[k := c][1..] == ts[1..][k - 1 := c];
      SumUpdate(ts[1..], k - 1, c);
    }
  }

  /** FrontPos stops behind the last child of at least the given priority. */
  lemma {:induction false} FrontPosStops(ts: seq<Trie>, pos: nat, prio: nat)
    requires pos <= |ts|
    ensures var p := FrontPos(ts, pos, prio);
            && (p > 0 ==> ts[p - 1].priority >= prio)
            && (forall k :: p <= k < pos ==> ts[k].priority < prio)
  {
    if pos > 0 && ts[pos - 1].priority < prio { FrontPosStops(ts, pos - 1, prio); }
  }

  /** Raising one priority and moving that child up keeps the order. */
  lemma MoveUpOrdered(ts: seq<Trie>, k: nat, c: Trie)
    requires Ordered(ts) && k < |ts| && c.priority == ts[k].priority + 1
    ensures Ordered(MoveUp(ts[k := c], k, FrontPos(ts, k, c.priority)))
  {
    var p := FrontPos(ts, k, c.priority);
    FrontPosStops(ts, k, c.priority);
    var us := ts[k := c];
    var ms := MoveUp(us, k, p);
    MoveUpAt(us, k, p);
    forall i, j | 0 <= i < j < |ms| ensures ms[i].priority >= ms[j].priority {
      MovedPair(ts, k, c, p, Source(k, p, i), Source(k, p, j), i, j);
    }
  }

  lemma MovedPair(ts: seq<Trie>, k: nat, c: Trie, p: nat, a: nat, b: nat, i: nat, j: nat)
    requires Ordered(ts) && p <= k < |ts| && c.priority == ts[k].priority + 1
    requires p > 0 ==> ts[p - 1].priority >= c.priority
    requires forall q :: p <= q < k ==> ts[q].priority < c.priority
    requires i < j && a == Source(k, p, i) < |ts| && b == Source(k, p, j) < |ts|
    ensures ts[k := c][a].priority >= ts[k := c][b].priority
  {
    if j == p {
      assert ts[a].priority >= ts[p - 1].priority;
    } else if i != p {
      assert a < b;
    }
  }

  /** The state between entering a child and finishing below it. */
  predicate EnteredOk(t: Trie) {
    t.priority == HandlersIn(t) + 1 && ChildPrioritiesOk(t.children)
  }

  /** The bumped child passes exactly those in front of it that have a lower priority now. */
  lemma BumpPassesLower(n: Trie, k: nat)
    requires k < |n.indices| <= |n.children|
    ensures var p, priority := BumpChild(n, k).1, n.children[k].priority + 1;
            && (forall j :: p <= j < k ==> n.children[j].priority < priority)
            && (p > 0 ==> n.children[p - 1].priority >= priority)
  {
    FrontPosStops(n.children, k, n.children[k].priority + 1);
  }

  lemma BumpPriorities(n: Trie, k: nat, c: Trie)
    requires ChildPrioritiesOk(n.children) && k < |n.indices| <= |n.children|
    requires PrioritiesOk(c) && c.priority == n.children[k].priority + 1
    ensures var (b, p) := BumpChild(n, k);
            var cs := b.children[p := c];
            ChildPrioritiesOk(cs) && SumHandlers(cs) == SumHandlers(n.children) + 1
  {
    hide SumHandlers, HandlersIn;
    var (b, p) := BumpChild(n, k);
    var us := n.children[k := c];
    MovedAndReplaced(n.children, k, p, c);
    MoveUpOrdered(n.children, k, c);
    SumMoveUp(us, k, p);
    SumUpdate(n.children, k, c);
    MoveUpAt(us, k, p);
    var cs := b.children[p := c];
    assert cs == MoveUp(us, k, p);
    forall i | 0 <= i < |cs| ensures PrioritiesOk(cs[i]) {
      assert cs[i] == us[Source(k, p, i)];
    }
  }

  /** A freshly hung branch holds one handler. */
  lemma {:induction false} InsertChildPriorities(t: Trie, numParams: Uint8, path: string, h: Handlers)
    requires t.children == []
    ensures var r := InsertChild(t, numParams, path, h);
            r.Some? ==> && r.value.priority == t.priority && ChildPrioritiesOk(r.value.children)
                        && (if numParams == 0 then r.value.handlers.Some? && r.value.children == []
                            else r.value.handlers == t.handlers && SumHandlers(r.value.children) == 1)
    decreases |path|, 1
  {
    if InsertChild(t, numParams, path, h).Some? && numParams > 0 {
      InsertWildcardPriorities(t, numParams, path, h, FirstWild(path));
    }
  }

  lemma {:induction false} InsertWildcardPriorities(t: Trie, numParams: Uint8, path: string, h: Handlers, i: nat)
    requires numParams > 0 && i == FirstWild(path) && i < |path|
    requires InsertChild(t, numParams, path, h).Some?
    ensures var r := InsertChild(t, numParams, path, h).value;
            && r.priority == t.priority && r.handlers == t.handlers
            && ChildPrioritiesOk(r.children) && SumHandlers(r.children) == 1
    decreases |path|, 0
  {
    hide InsertChild;
    var r := InsertChild(t, numParams, path, h).value;
    if path[i] != ':' {
      CatchAllInsert(t, numParams, path, h, i);
      var leaf := r.children[0].children[0];
      assert SumHandlers(leaf.children) == 0;
      OneHandler(r.children[0], leaf);
    } else if WildEnd(path, i) < |path| {
      ParamWithRest(t, numParams, path, h, i);
      var blank := EmptyTrie.(maxParams := numParams - 1, priority := 1);
      InsertChildPriorities(blank, numParams - 1, path[WildEnd(path, i)..], h);
      OneHandler(r.children[0], r.children[0].children[0]);
    } else {
      ParamWithoutRest(t, numParams, path, h, i);
    }
    assert PrioritiesOk(r.children[0]);
    SumSingle(r.children[0]);
    assert r.children == [r.children[0]];
  }

  lemma SumSingle(c: Trie)
    ensures SumHandlers([c]) == HandlersIn(c)
  {
    assert SumHandlers([c][1..]) == 0;
  }

  lemma OneHandler(t: Trie, c: Trie)
    requires t.children == [c] && t.handlers == None
    requires c.priority == 1 && ChildPrioritiesOk(c.children) && HandlersIn(c) == 1
    ensures HandlersIn(t) == 1 && ChildPrioritiesOk(t.children)
  {
    assert PrioritiesOk(c);
    SumSingle(c);
  }

  lemma SplitPriorities(t: Trie, i: nat)
    requires i < |t.path| && EnteredOk(t)
    ensures EnteredOk(SplitEdge(t, i)) && SplitEdge(t, i).priority == t.priority
  {
    var n := SplitEdge(t, i);
    var child := n.children[0];
    assert HandlersIn(child) == HandlersIn(t);
    assert PrioritiesOk(child);
    assert SumHandlers([child]) == HandlersIn(child) + SumHandlers([child][1..]);
  }

  lemma SplitAtPriorities(entered: Trie, path: string, numParams: Uint8)
    requires EnteredOk(entered)
    ensures var n := SplitAt(RaiseMax(entered, numParams), path);
            EnteredOk(n) && n.priority == entered.priority
  {
    var t := RaiseMax(entered, numParams);
    assert HandlersIn(t) == HandlersIn(entered);
    var i := CommonPrefix(path, t.path);
    if i < |t.path| { SplitPriorities(t, i); }
  }

  lemma NextAtPriorities(n: Trie, rest: string, numParams: Uint8)
    requires rest != "" && Walkable(n) && EnteredOk(n)
    requires var m := NextAt(n, rest, numParams); m.Down? && m.pos < |m.n.children|
    ensures var m := NextAt(n, rest, numParams);
            m.n.priority == n.priority && m.n.handlers == n.handlers && EnteredOk(m.n.children[m.pos])
  {
    var m := NextAt(n, rest, numParams);
    if n.wildChild || (n.nType.ParamNode? && rest[0] == '/' && |n.children| == 1) {
      assert PrioritiesOk(n.children[0]);
    } else {
      var k := IndexOf(n.indices, rest[0]);
      assert PrioritiesOk(n.children[k]);
    }
  }

  lemma DownPriorities(n: Trie, rest: string, numParams: Uint8, c: Trie)
    requires rest != "" && Walkable(n) && EnteredOk(n)
    requires var m := NextAt(n, rest, numParams);
             m.Down? && m.pos < |m.n.children| && PrioritiesOk(c) && c.priority == m.n.children[m.pos].priority
    ensures var m := NextAt(n, rest, numParams);
            PrioritiesOk(m.n.(children := m.n.children[m.pos := c]))
  {
    var m := NextAt(n, rest, numParams);
    var r := m.n.(children := m.n.children[m.pos := c]);
    NextAtPriorities(n, rest, numParams);
    if n.wildChild || (n.nType.ParamNode? && rest[0] == '/' && |n.children| == 1) {
      assert PrioritiesOk(n.children[0]);
      assert r.children == n.children[0 := c];
      SumUpdate(n.children, 0, c);
    } else {
      var k := IndexOf(n.indices, rest[0]);
      assert PrioritiesOk(n.children[k]);
      BumpPriorities(n, k, c);
    }
  }

  lemma HangBelowPriorities(n: Trie, rest: string, numParams: Uint8, h: Handlers)
    requires rest != "" && Walkable(n) && EnteredOk(n) && NextAt(n, rest, numParams).HangBelow?
    ensures var m := NextAt(n, rest, numParams);
            var r := WithChild(m.n, m.pos, InsertChild(m.n.children[m.pos], numParams, rest, h));
            r.Some? ==> PrioritiesOk(r.value) && r.value.priority == n.priority
  {
    hide InsertChild;
    var m := NextAt(n, rest, numParams);
    var blank := EmptyTrie.(maxParams := numParams);
    assert m.n.children[m.pos] == Enter(blank);
    InsertChildPriorities(Enter(blank), numParams, rest, h);
    var c := InsertChild(Enter(blank), numParams, rest, h);
    if c.Some? {
      assert HandlersIn(c.value) == 1 by { assert SumHandlers([]) == 0; }
      HungPriorities(n, rest[0], numParams, c.value);
    }
  }

  lemma HungPriorities(n: Trie, b: char, numParams: Uint8, c: Trie)
    requires |n.indices| == |n.children| && ChildPrioritiesOk(n.children)
    requires PrioritiesOk(c) && c.priority == 1
    ensures var (a, pos) := AppendChild(n, b, numParams);
            var cs := a.children[pos := c];
            ChildPrioritiesOk(cs) && SumHandlers(cs) == SumHandlers(n.children) + 1
  {
    var blank := EmptyTrie.(maxParams := numParams);
    SumConcat(n.children, [blank]);
    SumSingle(blank);
    assert PrioritiesOk(blank);
    hide SumHandlers, HandlersIn;
    var ext := n.(indices := n.indices + [b], children := n.children + [blank]);
    BumpPriorities(ext, |n.indices|, c);
  }

  lemma HangHerePriorities(n: Trie, rest: string, numParams: Uint8, h: Handlers)
    requires EnteredOk(n) && numParams > 0
    ensures var r := InsertChild(n, numParams, rest, h);
            r.Some? ==> PrioritiesOk(r.value) && r.value.priority == n.priority
  {
    if InsertChild(n, numParams, rest, h).Some? {
      assert n.children == [];
      InsertChildPriorities(n, numParams, rest, h);
    }
  }

  /** The walk restores every priority it passes. */
  lemma {:induction false} WalkPriorities(entered: Trie, path: string, numParams: Uint8, h: Handlers)
    requires Shape(entered) && entered.priority > 0 && Enterable(entered, path)
    requires Counted(entered, path, numParams) && EnteredOk(entered)
    ensures var r := Walk(entered, path, numParams, h);
            r.Some? ==> PrioritiesOk(r.value) && r.value.priority == entered.priority
    decreases Height(entered)
  {
    var r := Walk(entered, path, numParams, h);
    if r.Some? {
      SplitKeepsShapeAt(entered, path, numParams);
      SplitAtPriorities(entered, path, numParams);
      var n := SplitAt(RaiseMax(entered, numParams), path);
      var i := CommonPrefix(path, entered.path);
      if i < |path| {
        var rest := path[i..];
        var m := NextAt(n, rest, numParams);
        match m
        case Down(_, _, _, _) =>
          NextGoesDown(entered, path, numParams);
          DownCountedAt(n, rest, numParams);
          NextAtPriorities(n, rest, numParams);
          WalkPriorities(m.n.children[m.pos], m.rest, m.numParams, h);
          DownPriorities(n, rest, numParams, Walk(m.n.children[m.pos], m.rest, m.numParams, h).value);
        case HangBelow(_, _, _) =>
          NextAtRoutes(n, rest, numParams);
          HangBelowPriorities(n, rest, numParams, h);
        case HangHere(_, _) =>
          StaticHang(n, rest, numParams);
          assert CountWild(rest) > 0;
          HangHerePriorities(n, rest, numParams, h);
      }
    }
  }

  // ---------------------------------------------------------------- maxParams

  /** maxParams is the node's own wildcard plus the largest count of a child. */
  predicate MaxParamsOk(t: Trie) {
    t.maxParams == Own(t) + MaxOfMaxParams(t.children) && ChildMaxParamsOk(t.children)
  }

  predicate ChildMaxParamsOk(ts: seq<Trie>) {
    forall i :: 0 <= i < |ts| ==> MaxParamsOk(ts[i])
  }

  lemma {:induction false} MaxConcat(a: seq<Trie>, b: seq<Trie>)
    ensures MaxOfMaxParams(a + b) == Max(MaxOfMaxParams(a), MaxOfMaxParams(b))
  {
    if a == [] {
      assert a + b == b;
    } else {
      assert (a + b)[1..] == a[1..] + b;
      MaxConcat(a[1..], b);
    }
  }

  lemma MaxMoveUp(ts: seq<Trie>, pos: nat, newPos: nat)
    requires newPos <= pos < |ts|
    ensures MaxOfMaxParams(MoveUp(ts, pos, newPos)) == MaxOfMaxParams(ts)
  {
    var a, b, c, d := ts[..newPos], ts[newPos..pos], [ts[pos]], ts[pos + 1..];
    MoveUpParts(ts, pos, newPos);
    MaxFour(a, b, c, d);
    MaxFour(a, c, b, d);
  }

  lemma MaxFour(a: seq<Trie>, b: seq<Trie>, c: seq<Trie>, d: seq<Trie>)
    ensures MaxOfMaxParams(a + (b + (c + d)))
         == Max(Max(MaxOfMaxParams(a), MaxOfMaxParams(b)), Max(MaxOfMaxParams(c), MaxOfMaxParams(d)))
  {
    MaxConcat(a, b + (c + d));
    MaxConcat(b, c + d);
    MaxConcat(c, d);
  }

  /** Raising one child raises the largest count accordingly. */
  lemma {:induction false} MaxUpdate(ts: seq<Trie>, k: nat, c: Trie, m: Uint8)
    requires k < |ts| && c.maxParams == Max(ts[k].maxParams, m)
    ensures MaxOfMaxParams(ts[k := c]) == Max(MaxOfMaxParams(ts), m)
  {
    if k == 0 {
      assert ts[k := c][1..] == ts[1..];
    } else {
      assert ts[k := c][1..] == ts[1..][k - 1 := c];
      MaxUpdate(ts[1..], k - 1, c, m);
    }
  }

  lemma MaxSingle(c: Trie)
    ensures MaxOfMaxParams([c]) == c.maxParams
  {
    assert MaxOfMaxParams([c][1..]) == 0;
  }

  lemma BumpMaxParams(n: Trie, k: nat, c: Trie, m: Uint8)
    requires ChildMaxParamsOk(n.children) && k < |n.indices| <= |n.children|
    requires MaxParamsOk(c) && c.maxParams == Max(n.children[k].maxParams, m)
    ensures var (b, p) := BumpChild(n, k);
            var cs := b.children[p := c];
            ChildMaxParamsOk(cs) && MaxOfMaxParams(cs) == Max(MaxOfMaxParams(n.children), m)
  {
    hide MaxParamsOk, MaxOfMaxParams;
    var (b, p) := BumpChild(n, k);
    var us := n.children[k := c];
    MovedAndReplaced(n.children, k, p, c);
    MaxMoveUp(us, k, p);
    MaxUpdate(n.children, k, c, m);
    MoveUpAt(us, k, p);
    var cs := b.children[p := c];
    assert cs == MoveUp(us, k, p);
    forall i | 0 <= i < |cs| ensures MaxParamsOk(cs[i]) {
      assert cs[i] == us[Source(k, p, i)];
    }
  }

  /** A freshly hung branch counts its wildcards exactly. */
  lemma {:induction false} InsertChildMaxParams(t: Trie, numParams: Uint8, path: string, h: Handlers)
    requires t.children == []
    ensures var r := InsertChild(t, numParams, path, h);
            r.Some? ==> r.value.maxParams == t.maxParams && r.value.nType == t.nType
                        && ChildMaxParamsOk(r.value.children) && MaxOfMaxParams(r.value.children) == numParams
    decreases |path|, 1
  {
    var r := InsertChild(t, numParams, path, h);
    if r.Some? && numParams > 0 {
      var i := FirstWild(path);
      if path[i] == ':' {
        InsertParamMaxParams(t, numParams, path, h, i);
      } else {
        var child := r.value.children[0];
        assert MaxParamsOk(child.children[0]);
        OneBelow(child, child.children[0]);
      }
      OneBelow(r.value, r.value.children[0]);
    }
  }

  lemma {:induction false} InsertParamMaxParams(t: Trie, numParams: Uint8, path: string, h: Handlers, i: nat)
    requires numParams > 0 && i == FirstWild(path) && i < |path| && path[i] == ':'
    requires InsertChild(t, numParams, path, h).Some?
    ensures var r := InsertChild(t, numParams, path, h).value;
            |r.children| == 1 && MaxParamsOk(r.children[0]) && r.children[0].maxParams == numParams
    decreases |path|, 0
  {
    var end := WildEnd(path, i);
    if end < |path| {
      ParamWithRest(t, numParams, path, h, i);
      var blank := EmptyTrie.(maxParams := numParams - 1, priority := 1);
      InsertChildMaxParams(blank, numParams - 1, path[end..], h);
      ParamOverRest(path[i..end], numParams, InsertChild(blank, numParams - 1, path[end..], h).value);
    } else {
      ParamWithoutRest(t, numParams, path, h, i);
    }
  }

  lemma ParamOverRest(name: string, numParams: Uint8, below: Trie)
    requires numParams > 0 && below.nType.StaticNode? && below.maxParams == numParams - 1
    requires ChildMaxParamsOk(below.children) && MaxOfMaxParams(below.children) == numParams - 1
    ensures MaxParamsOk(Trie(name, false, ParamNode, numParams, "", [below], None, 1))
  {
    OneBelow(Trie(name, false, ParamNode, numParams, "", [below], None, 1), below);
  }

  lemma OneBelow(t: Trie, c: Trie)
    requires t.children == [c] && MaxParamsOk(c)
    ensures ChildMaxParamsOk(t.children) && MaxOfMaxParams(t.children) == c.maxParams
  {
    MaxSingle(c);
  }

  /** What is known of maxParams when a node has been entered with `numParams` wildcards left below it. */
  predicate MaxEntered(t: Trie, numParams: Uint8) {
    && ChildMaxParamsOk(t.children)
    && Max(t.maxParams, numParams) == Max(Own(t) + MaxOfMaxParams(t.children), numParams + Own(t))
  }

  lemma SplitAtMaxParams(entered: Trie, path: string, numParams: Uint8)
    requires ChildMaxParamsOk(entered.children) && entered.priority > 0
    ensures var n := SplitAt(RaiseMax(entered, numParams), path);
            && ChildMaxParamsOk(n.children) && MaxOfMaxParams(n.children) == MaxOfMaxParams(entered.children)
            && n.maxParams == Max(entered.maxParams, numParams)
  {
    var t := RaiseMax(entered, numParams);
    var i := CommonPrefix(path, t.path);
    if i < |t.path| {
      var child := SplitEdge(t, i).children[0];
      MaxSingle(child);
      assert MaxParamsOk(child);
    }
  }

  lemma NextAtMaxParams(n: Trie, rest: string, numParams: Uint8)
    requires rest != "" && Passed(n, rest, numParams) && ChildMaxParamsOk(n.children)
    requires var m := NextAt(n, rest, numParams);
             m.Down? && m.pos < |m.n.children| && Counted(m.n.children[m.pos], rest, m.numParams)
    ensures var m := NextAt(n, rest, numParams);
            m.n.maxParams == n.maxParams && MaxEntered(m.n.children[m.pos], m.numParams)
  {
    var m := NextAt(n, rest, numParams);
    if n.wildChild {
      assert MaxParamsOk(n.children[0]) && Shape(n.children[0]);
    } else if n.nType.ParamNode? && rest[0] == '/' && |n.children| == 1 {
      assert MaxParamsOk(n.children[0]) && Indexed(n.children[0], '/');
    } else {
      var k := IndexOf(n.indices, rest[0]);
      IndexedChild(n, k);
      assert MaxParamsOk(n.children[k]);
    }
  }

  lemma DownMaxParams(n: Trie, rest: string, numParams: Uint8, c: Trie)
    requires rest != "" && Passed(n, rest, numParams) && ChildMaxParamsOk(n.children)
    requires var m := NextAt(n, rest, numParams);
             && m.Down? && m.pos < |m.n.children| && Counted(m.n.children[m.pos], rest, m.numParams)
             && MaxParamsOk(c) && c.maxParams == Max(m.n.children[m.pos].maxParams, m.numParams)
    ensures var m := NextAt(n, rest, numParams);
            var cs := m.n.children[m.pos := c];
            ChildMaxParamsOk(cs) && MaxOfMaxParams(cs) == Max(MaxOfMaxParams(n.children), numParams)
  {
    hide Shape, MaxParamsOk, MaxOfMaxParams;
    var m := NextAt(n, rest, numParams);
    if n.wildChild || (n.nType.ParamNode? && rest[0] == '/' && |n.children| == 1) {
      assert m.n.children[m.pos := c] == n.children[0 := c];
      MaxUpdate(n.children, 0, c, numParams);
    } else {
      var k := IndexOf(n.indices, rest[0]);
      BumpMaxParams(n, k, c, numParams);
    }
  }

  lemma HangBelowMaxParams(n: Trie, rest: string, numParams: Uint8, h: Handlers)
    requires rest != "" && Walkable(n) && ChildMaxParamsOk(n.children) && NextAt(n, rest, numParams).HangBelow?
    ensures var m := NextAt(n, rest, numParams);
            var r := WithChild(m.n, m.pos, InsertChild(m.n.children[m.pos], numParams, rest, h));
            r.Some? ==> && ChildMaxParamsOk(r.value.children) && r.value.maxParams == n.maxParams
                        && MaxOfMaxParams(r.value.children) == Max(MaxOfMaxParams(n.children), numParams)
  {
    var m := NextAt(n, rest, numParams);
    var blank := EmptyTrie.(maxParams := numParams);
    assert m.n.children[m.pos] == Enter(blank);
    InsertChildMaxParams(Enter(blank), numParams, rest, h);
    var c := InsertChild(Enter(blank), numParams, rest, h);
    if c.Some? {
      HungMaxParams(n, rest[0], blank, c.value, numParams);
    }
  }

  /** The children after a child has been appended, moved and replaced. */
  lemma AppendMoves(n: Trie, b: char, c: Trie, numParams: Uint8)
    requires |n.indices| == |n.children|
    ensures var (a, p) := AppendChild(n, b, numParams);
            p <= |n.children| && a.children[p := c] == MoveUp(n.children + [c], |n.children|, p)
  {
    var us := n.children + [EmptyTrie.(maxParams := numParams)];
    var (a, p) := AppendChild(n, b, numParams);
    MovedAndReplaced(us, |n.children|, p, c);
    assert us[|n.children| := c] == n.children + [c];
  }

  lemma HungMaxParams(n: Trie, b: char, blank: Trie, c: Trie, numParams: Uint8)
    requires |n.indices| == |n.children| && ChildMaxParamsOk(n.children)
    requires blank == EmptyTrie.(maxParams := numParams)
    requires MaxParamsOk(c) && c.maxParams == numParams
    ensures var (a, pos) := AppendChild(n, b, numParams);
            var cs := a.children[pos := c];
            ChildMaxParamsOk(cs) && MaxOfMaxParams(cs) == Max(MaxOfMaxParams(n.children), numParams)
  {
    hide MaxParamsOk, MaxOfMaxParams, AppendChild, MoveUp;
    var k := |n.children|;
    var (a, p) := AppendChild(n, b, numParams);
    AppendMoves(n, b, c, numParams);
    var vs := n.children + [c];
    MaxConcat(n.children, [c]);
    MaxSingle(c);
    MaxMoveUp(vs, k, p);
    MoveUpAt(vs, k, p);
    var cs := a.children[p := c];
    assert cs == MoveUp(vs, k, p);
    forall i | 0 <= i < |cs| ensures MaxParamsOk(cs[i]) {
      assert cs[i] == vs[Source(k, p, i)];
    }
  }

  /**
   The walk keeps maxParams exact: the children count exactly, and the node itself is raised
   to the number of wildcards below it on the new route.
   */
  lemma {:induction false} WalkMaxParams(entered: Trie, path: string, numParams: Uint8, h: Handlers)
    requires Shape(entered) && entered.priority > 0 && Enterable(entered, path)
    requires Counted(entered, path, numParams) && ChildMaxParamsOk(entered.children)
    ensures var r := Walk(entered, path, numParams, h);
            r.Some? ==> && ChildMaxParamsOk(r.value.children)
                        && r.value.maxParams == Max(entered.maxParams, numParams)
                        && MaxOfMaxParams(r.value.children) == Max(MaxOfMaxParams(entered.children), numParams)
    decreases Height(entered)
  {
    var r := Walk(entered, path, numParams, h);
    if r.Some? {
      SplitKeepsShapeAt(entered, path, numParams);
      SplitAtMaxParams(entered, path, numParams);
      var n := SplitAt(RaiseMax(entered, numParams), path);
      var i := CommonPrefix(path, entered.path);
      var rest := path[i..];
      if i == |path| {
        assert numParams == 0;
      } else {
        var m := NextAt(n, rest, numParams);
        match m
        case Down(_, _, _, _) =>
          WalkMaxParamsDown(entered, n, path, rest, numParams, h);
        case HangBelow(_, _, _) =>
          NextAtRoutes(n, rest, numParams);
          HangBelowMaxParams(n, rest, numParams, h);
        case HangHere(_, _) =>
          StaticHang(n, rest, numParams);
          assert CountWild(rest) > 0;
          InsertChildMaxParams(n, numParams, rest, h);
      }
    }
  }

  lemma {:induction false} WalkMaxParamsDown(entered: Trie, n: Trie, path: string, rest: string, numParams: Uint8,
                                             h: Handlers)
    requires Shape(entered) && entered.priority > 0 && Enterable(entered, path)
    requires rest != "" && Passed(n, rest, numParams) && ChildMaxParamsOk(n.children)
    requires Next(entered, path, numParams) == NextAt(n, rest, numParams)
    requires NextAt(n, rest, numParams).Down?
    ensures var m := NextAt(n, rest, numParams);
            && DownIsGood(m, Height(entered))
            && var c := Walk(m.n.children[m.pos], m.rest, m.numParams, h);
            c.Some? ==> && m.n.maxParams == n.maxParams
                        && ChildMaxParamsOk(m.n.children[m.pos := c.value])
                        && MaxOfMaxParams(m.n.children[m.pos := c.value]) == Max(MaxOfMaxParams(n.children), numParams)
    decreases Height(entered), 0
  {
    var m := NextAt(n, rest, numParams);
    NextGoesDown(entered, path, numParams);
    DownCountedAt(n, rest, numParams);
    var w := m.n.children[m.pos];
    NextAtMaxParams(n, rest, numParams);
    WalkMaxParams(w, m.rest, m.numParams, h);
    var c := Walk(w, m.rest, m.numParams, h);
    if c.Some? {
      WalkKeepsShape(w, m.rest, m.numParams, h);
      SameOwn(w, c.value);
      DownMaxParams(n, rest, numParams, c.value);
    }
  }

  lemma SameOwn(a: Trie, b: Trie)
    requires SameRole(a, b) && Shape(a) && Shape(b)
    ensures Own(a) == Own(b)
  {
  }

  /** maxParams is at least the number of wildcards of every route through the node. */
  lemma {:induction false} MaxParamsBound(t: Trie, q: string, g: Handlers)
    requires Shape(t) && MaxParamsOk(t) && HasRoute(t, q, g)
    ensures CountWild(q) <= t.maxParams
  {
    var s, k := RouteCases(t, q, g);
    CountWildConcat(t.path, s);
    WildcardPath(t);
    if s != "" {
      MaxParamsBound(t.children[k], s, g);
      MaxAtLeast(t.children, k);
    }
  }

  lemma {:induction false} MaxAtLeast(ts: seq<Trie>, k: nat)
    requires k < |ts|
    ensures ts[k].maxParams <= MaxOfMaxParams(ts)
  {
    if k > 0 { MaxAtLeast(ts[1..], k - 1); }
  }
}
