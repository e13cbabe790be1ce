/** Registration keeps the shape of the tree. */
module RouteTrieShape {
  import opened Common
  import opened RoutePattern
  import opened RouteTrie

  // ---------------------------------------------------------------- reordering children

  /** Where the element at position `q` of MoveUp(s, pos, newPos) stood in `s`. */
  function Source(pos: nat, newPos: nat, q: nat): (k: nat)
    requires newPos <= pos
  {
    if q == newPos then pos else if newPos < q <= pos then q - 1 else q
  }

  lemma MoveUpAt<T>(s: seq<T>, pos: nat, newPos: nat)
    requires newPos <= pos < |s|
    ensures forall q :: 0 <= q < |s| ==>
              (Source(pos, newPos, q) < |s| && MoveUp(s, pos, newPos)[q] == s[Source(pos, newPos, q)])
  {
  }

  /** Moving one place further exchanges two neighbours. */
  lemma MoveUpStep<T>(s: seq<T>, pos: nat, p: nat)
    requires 0 < p <= pos < |s|
    ensures var m := MoveUp(s, pos, p);
            m[p - 1] == s[p - 1] && MoveUp(s, pos, p - 1) == m[p - 1 := m[p]][p := m[p - 1]]
  {
  }

  lemma MoveUpNowhere<T>(s: seq<T>, pos: nat)
    requires pos < |s|
    ensures MoveUp(s, pos, pos) == s
  {
  }

  lemma MoveUpIndexed(children: seq<Trie>, indices: string, pos: nat, newPos: nat)
    requires IndexedBy(children, indices) && newPos <= pos < |children|
    ensures IndexedBy(MoveUp(children, pos, newPos), MoveUp(indices, pos, newPos))
  {
    MoveUpAt(children, pos, newPos);
    MoveUpAt(indices, pos, newPos);
    var cs, bs := MoveUp(children, pos, newPos), MoveUp(indices, pos, newPos);
    forall q | 0 <= q < |cs| ensures Indexed(cs[q], bs[q]) {
      assert Indexed(children[Source(pos, newPos, q)], indices[Source(pos, newPos, q)]);
    }
    forall q, p | 0 <= q < p < |bs| ensures bs[q] != bs[p] {
      assert Source(pos, newPos, q) != Source(pos, newPos, p);
    }
  }

  /** A node may be replaced by one that plays the same role for its parent. */
  predicate SameRole(a: Trie, b: Trie) {
    && b.nType == a.nType && First(b) == First(a)
    && (a.nType.CatchAllNode? ==> b.wildChild == a.wildChild)
  }

  lemma ReplaceChild(n: Trie, pos: nat, c: Trie)
    requires LocalShape(n) && pos < |n.children| && SameRole(n.children[pos], c)
    ensures LocalShape(n.(children := n.children[pos := c]))
  {
    var m := n.(children := n.children[pos := c]);
    assert forall i, b :: 0 <= i < |n.children| && Indexed(n.children[i], b) ==> Indexed(m.children[i], b);
  }

  lemma ReplaceChildShape(n: Trie, pos: nat, c: Trie)
    requires LocalShape(n) && pos < |n.children| && SameRole(n.children[pos], c)
    requires forall i :: 0 <= i < |n.children| && i != pos ==> Shape(n.children[i])
    requires Shape(c)
    ensures Shape(n.(children := n.children[pos := c]))
  {
    ReplaceChild(n, pos, c);
  }

  /** incrementChildPrio, followed by replacing the child by the result of registering below it. */
  lemma BumpKeepsShape(t: Trie, k: nat, c: Trie)
    requires Shape(t) && t.nType.StaticNode? && !t.wildChild && k < |t.indices|
    requires SameRole(t.children[k], c) && Shape(c)
    ensures var (b, pos) := BumpChild(t, k);
            pos < |b.children| && Shape(b.(children := b.children[pos := c]))
  {
    hide SameRole, MoveUp;
    var (b, p) := BumpChild(t, k);
    var m := b.(children := b.children[p := c]);
    var cs := t.children[k := c];
    MoveUpAt(cs, k, p);
    MovedAndReplaced(t.children, k, p, c);
    assert m.children == MoveUp(cs, k, p);
    assert forall q :: 0 <= q < |cs| ==> Shape(cs[q]);
    BumpKeepsLocalShape(t, k, c);
  }

  lemma BumpKeepsLocalShape(t: Trie, k: nat, c: Trie)
    requires LocalShape(t) && t.nType.StaticNode? && !t.wildChild && k < |t.indices|
    requires SameRole(t.children[k], c)
    ensures var (b, pos) := BumpChild(t, k);
            pos < |b.children| && LocalShape(b.(children := b.children[pos := c]))
  {
    hide BumpChild, Indexed, MoveUp;
    var (b, p) := BumpChild(t, k);
    BumpMoves(t, k, c);
    BumpedIndices(t, k, c);
    if t.path == "" { assert |t.indices| == 1 && CatchAllHead(t.children[0]); }
  }

  /** The children after the bump and the replacement, and what does not change. */
  lemma BumpMoves(t: Trie, k: nat, c: Trie)
    requires k < |t.indices| <= |t.children|
    ensures var (b, p) := BumpChild(t, k);
            && p <= k && b.children[p := c] == MoveUp(t.children[k := c], k, p) && b.indices == MoveUp(t.indices, k, p)
            && b == t.(children := b.children, indices := b.indices)
            && (|t.indices| == 1 ==> p == 0 && b.indices == t.indices)
  {
    var (b, p) := BumpChild(t, k);
    MovedAndReplaced(t.children, k, p, c);
  }

  lemma BumpedIndices(t: Trie, k: nat, c: Trie)
    requires k < |t.indices| && IndexedBy(t.children, t.indices) && SameRole(t.children[k], c)
    ensures var (b, p) := BumpChild(t, k); IndexedBy(b.children[p := c], b.indices)
  {
    hide BumpChild;
    var (b, p) := BumpChild(t, k);
    var cs := t.children[k := c];
    BumpMoves(t, k, c);
    assert Indexed(t.children[k], t.indices[k]);
    assert IndexedBy(cs, t.indices);
    MoveUpIndexed(cs, t.indices, k, p);
  }

  /** Replacing after the move is the same as replacing before it. */
  lemma MovedAndReplaced(children: seq<Trie>, k: nat, p: nat, c: Trie)
    requires p <= k < |children|
    ensures MoveUp(children[k := Enter(children[k])], k, p)[p := c] == MoveUp(children[k := c], k, p)
  {
    MoveUpAt(children[k := Enter(children[k])], k, p);
    MoveUpAt(children[k := c], k, p);
  }

  lemma AppendKeepsShape(t: Trie, c: char, numParams: Uint8, child: Trie)
    requires Shape(t) && t.nType.StaticNode? && !t.wildChild && t.path != ""
    requires c !in t.indices && Indexed(child, c) && Shape(child)
    ensures var (a, pos) := AppendChild(t, c, numParams);
            Shape(a.(children := a.children[pos := child]))
  {
    var blank := EmptyTrie.(maxParams := numParams);
    var indices, children := t.indices + [c], t.children + [blank];
    var k := |t.indices|;
    var (a, p) := AppendChild(t, c, numParams);
    var m := a.(children := a.children[p := child]);
    MovedAndReplaced(children, k, p, child);
    var cs := children[k := child];
    assert IndexedBy(cs, indices) by {
      assert forall q :: 0 <= q < |t.children| ==> Indexed(t.children[q], t.indices[q]);
    }
    assert m.children == MoveUp(cs, k, p);
    MoveUpIndexed(cs, indices, k, p);
    MoveUpAt(cs, k, p);
    assert forall q :: 0 <= q < |cs| ==> Shape(cs[q]);
    assert LocalShape(m);
  }

  /** The first child of a node that may only continue with '/'. */
  lemma AppendSlash(t: Trie, numParams: Uint8, child: Trie)
    requires LocalShape(t) && HoldsWildcard(t) && t.children == []
    requires Indexed(child, '/') && Shape(child)
    ensures |t.indices| == 0
    ensures var (a, pos) := AppendChild(t, '/', numParams);
            Shape(a.(children := a.children[pos := child]))
  {
    var (a, pos) := AppendChild(t, '/', numParams);
    var m := a.(children := a.children[pos := child]);
    assert pos == 0 && m.children == [child] && m.indices == "/";
    assert LocalShape(m);
  }

  // ---------------------------------------------------------------- splitting an edge

  lemma SplitKeepsShape(t: Trie, i: nat)
    requires Shape(t) && t.nType.StaticNode? && 0 < i < |t.path| && t.priority > 0
    ensures Shape(SplitEdge(t, i)) && SameRole(t, SplitEdge(t, i))
  {
    var n := SplitEdge(t, i);
    var child := n.children[0];
    assert NoWild(child.path) && NoWild(n.path);
    assert LocalShape(child);
    assert Shape(child);
    assert LocalShape(n);
  }

  // ---------------------------------------------------------------- insertChild

  lemma CutCounts(path: string, i: nat, end: nat)
    requires i < end <= |path| && NoWild(path[..i]) && IsWild(path[i]) && NoWild(path[i + 1..end])
    ensures CountWild(path) == 1 + CountWild(path[end..])
  {
    assert path == path[..i] + path[i..];
    CountWildConcat(path[..i], path[i..]);
    CountWildZero(path[..i]);
    assert path[i..][1..] == path[i + 1..];
    assert path[i + 1..] == path[i + 1..end] + path[end..];
    CountWildConcat(path[i + 1..end], path[end..]);
    CountWildZero(path[i + 1..end]);
  }

  predicate FreshNode(t: Trie) {
    t.nType.StaticNode? && t.path == "" && !t.wildChild && t.children == [] && t.indices == "" && t.handlers == None
  }

  lemma ParamLeafShape(name: string, h: Option<Handlers>, children: seq<Trie>, m: Uint8)
    requires |name| >= 2 && name[0] == ':' && NoWild(name[1..]) && '/' !in name[1..]
    requires |children| <= 1 && (|children| == 1 ==> Shape(children[0]) && Indexed(children[0], '/'))
    requires h.Some? || children != []
    ensures Shape(Trie(name, false, ParamNode, m, "", children, h, 1))
  {
    assert LocalShape(Trie(name, false, ParamNode, m, "", children, h, 1));
  }

  lemma WildParentShape(t: Trie, path: string, child: Trie)
    requires t.nType.StaticNode? && path != "" && NoWild(path) && t.indices == ""
    requires child.nType.ParamNode? && Shape(child)
    ensures Shape(t.(path := path, wildChild := true, children := [child]))
  {
    assert LocalShape(t.(path := path, wildChild := true, children := [child]));
  }

  lemma CatchAllShapeOk(t: Trie, prefix: string, leaf: Trie, m: Uint8)
    requires t.nType.StaticNode? && !t.wildChild && t.handlers == None && NoWild(prefix)
    requires leaf.nType.CatchAllNode? && !leaf.wildChild && leaf.children == [] && leaf.indices == ""
    requires |leaf.path| >= 3 && leaf.path[..2] == "/*" && NoWild(leaf.path[2..]) && '/' !in leaf.path[2..]
    requires leaf.handlers.Some?
    ensures var head := Trie("", true, CatchAllNode, m, "", [leaf], None, 1);
            Shape(t.(path := prefix, children := [head], indices := "/"))
  {
    var head := Trie("", true, CatchAllNode, m, "", [leaf], None, 1);
    assert LocalShape(leaf);
    assert Shape(leaf);
    assert LocalShape(head);
    assert Shape(head);
    assert LocalShape(t.(path := prefix, children := [head], indices := "/"));
  }

  lemma HasFirstWild(path: string)
    requires CountWild(path) > 0
    ensures FirstWild(path) < |path|
  {
    CountWildZero(path);
    assert path[..|path|] == path;
  }

  /** insertChild below a node that holds nothing yet. */
  lemma {:induction false} InsertChildFreshShape(t: Trie, numParams: Uint8, path: string, h: Handlers)
    requires FreshNode(t)
    requires numParams == CountWild(path) && path != "" && !IsWild(path[0])
    ensures var r := InsertChild(t, numParams, path, h);
            r.Some? ==> Shape(r.value) && r.value.nType.StaticNode? && First(r.value) == path[0]
    decreases |path|, 1
  {
    if numParams == 0 {
      CountWildZero(path);
      assert LocalShape(t.(path := path, handlers := Some(h)));
    } else if InsertChild(t, numParams, path, h).Some? {
      HasFirstWild(path);
      var i := FirstWild(path);
      assert i > 0;
      if path[i] == ':' {
        InsertParamShape(t, numParams, path, h, i, WildEnd(path, i));
        assert path[..i][0] == path[0];
      } else {
        InsertCatchAllShape(t, numParams, path, h, i);
      }
    }
  }

  lemma InsertCatchAllShape(t: Trie, numParams: Uint8, path: string, h: Handlers, i: nat)
    requires FreshNode(t) && numParams > 0
    requires i == FirstWild(path) && 0 < i < |path| && path[i] == '*'
    requires InsertChild(t, numParams, path, h).Some?
    ensures var r := InsertChild(t, numParams, path, h).value;
            Shape(r) && r.nType.StaticNode? && First(r) == path[0]
  {
    assert path[i + 1..|path|] == path[i + 1..];
    CatchAllTail(path, i);
    CatchAllShapeOk(t, path[..i - 1], Trie(path[i - 1..], false, CatchAllNode, 1, "", [], Some(h), 1), 1);
  }

  lemma CatchAllTail(path: string, i: nat)
    requires 0 < i < |path| - 1 && NoWild(path[..i]) && path[i - 1] == '/' && path[i] == '*'
    requires NoWild(path[i + 1..]) && '/' !in path[i + 1..]
    ensures NoWild(path[..i - 1]) && First(EmptyTrie.(path := path[..i - 1])) == path[0]
    ensures var leaf := path[i - 1..];
            |leaf| >= 3 && leaf[..2] == "/*" && NoWild(leaf[2..]) && '/' !in leaf[2..]
  {
    var leaf := path[i - 1..];
    assert leaf[2..] == path[i + 1..];
    assert leaf[..2] == "/*";
  }

  /** insertChild when the first wildcard is a parameter; `t` is fresh or a leaf without children. */
  lemma {:induction false} InsertParamShape(t: Trie, numParams: Uint8, path: string, h: Handlers, i: nat, end: nat)
    requires t.nType.StaticNode? && NoWild(t.path) && t.indices == "" && t.children == []
    requires numParams == CountWild(path) && numParams > 0
    requires i == FirstWild(path) && i < end <= |path| && path[i] == ':'
    requires end == WildEnd(path, i)
    requires i == 0 ==> t.path != ""
    ensures var r := InsertChild(t, numParams, path, h);
            r.Some? ==> Shape(r.value) && r.value.nType.StaticNode?
                        && r.value.path == (if i > 0 then path[..i] else t.path)
    decreases |path|, 0
  {
    var r := InsertChild(t, numParams, path, h);
    if r.Some? {
      var name := path[i..end];
      assert name[1..] == path[i + 1..end];
      var child := r.value.children[0];
      if end < |path| {
        CutCounts(path, i, end);
        var below := EmptyTrie.(maxParams := numParams - 1, priority := 1);
        InsertChildFreshShape(below, numParams - 1, path[end..], h);
        ParamLeafShape(name, None, child.children, numParams);
      } else {
        ParamLeafShape(name, Some(h), [], numParams);
      }
      WildParentShape(t, if i > 0 then path[..i] else t.path, child);
    }
  }

  // ---------------------------------------------------------------- the walk

  /** The pattern still to be stored at `t` has the given number of wildcards, its own not counted. */
  predicate Counted(t: Trie, path: string, numParams: Uint8) {
    numParams + Own(t) == CountWild(path)
  }

  lemma WildcardPath(t: Trie)
    requires LocalShape(t)
    ensures CountWild(t.path) == Own(t)
    ensures HoldsWildcard(t) ==> t.path != ""
  {
    match t.nType
    case StaticNode => CountWildZero(t.path);
    case ParamNode =>
      CountWildZero(t.path[1..]);
    case CatchAllNode =>
      if !t.wildChild {
        CountWildZero(t.path[2..]);
        assert t.path[1..][1..] == t.path[2..];
        assert t.path[0] == t.path[..2][0] && t.path[1] == t.path[..2][1];
      }
  }

  /** What the walk passes over is the node's own path, so the count of the rest is known. */
  lemma RestCounted(t: Trie, path: string, numParams: Uint8)
    requires LocalShape(t) && Enterable(t, path) && Counted(t, path, numParams)
    ensures var i := CommonPrefix(path, t.path);
            CountWild(path[i..]) == numParams && (i < |t.path| ==> t.nType.StaticNode? && i > 0)
  {
    var i := CommonPrefix(path, t.path);
    WildcardPath(t);
    assert path == path[..i] + path[i..];
    CountWildConcat(path[..i], path[i..]);
    if HoldsWildcard(t) {
      PrefixOf(t.path, path);
    } else {
      CountWildZero(t.path);
      CountWildZero(path[..i]);
    }
    assert path[..i] == t.path[..i];
    if i == |t.path| { assert t.path[..i] == t.path; }
  }

  lemma PrefixOf(a: string, path: string)
    requires a <= path
    ensures CommonPrefix(path, a) == |a|
  {
  }

  lemma LeafShape(n: Trie, h: Handlers)
    requires Shape(n) && n.handlers == None && (n.nType.CatchAllNode? ==> !n.wildChild)
    requires n.nType.StaticNode? ==> n.path != ""
    ensures Shape(n.(handlers := Some(h)))
  {
    assert LocalShape(n.(handlers := Some(h)));
  }

  /** The count of the rest is right for the node the walk goes down into. */
  lemma DownCounted(n: Trie, rest: string, numParams: Uint8)
    requires Shape(n) && rest != "" && CountWild(rest) == numParams
    ensures n.wildChild ==>
              var m := NextWild(n, rest, numParams);
              m.Down? ==> Counted(m.n.children[m.pos], m.rest, m.numParams)
    ensures !n.wildChild ==> |n.indices| <= |n.children|
    ensures n.nType.ParamNode? && |n.children| == 1 ==> Counted(Enter(n.children[0]), rest, numParams)
  {
    if n.wildChild {
      var w := RaiseMax(Enter(n.children[0]), numParams);
      EnterKeepsShape(n.children[0], numParams);
      WildcardPath(w);
      if w.path <= rest {
        assert rest == w.path + rest[|w.path|..];
        CountWildConcat(w.path, rest[|w.path|..]);
      }
    }
  }

  lemma WildDownKeepsShape(n: Trie, rest: string, numParams: Uint8, c: Trie)
    requires Shape(n) && n.wildChild && NextWild(n, rest, numParams).Down?
    requires var m := NextWild(n, rest, numParams); SameRole(m.n.children[m.pos], c)
    requires Shape(c)
    ensures var m := NextWild(n, rest, numParams);
            Shape(m.n.(children := m.n.children[m.pos := c])) && SameRole(n, m.n)
  {
    var m := NextWild(n, rest, numParams);
    assert m.n.(children := m.n.children[m.pos := c]) == n.(children := n.children[0 := c]);
    ReplaceChildShape(n, 0, c);
  }

  lemma SlashDownKeepsShape(n: Trie, c: Trie)
    requires Shape(n) && n.nType.ParamNode? && |n.children| == 1
    requires SameRole(n.children[0], c) && Shape(c)
    ensures Shape(n.(children := [Enter(n.children[0])][0 := c]))
  {
    assert [Enter(n.children[0])][0 := c] == n.children[0 := c];
    ReplaceChildShape(n, 0, c);
  }

  lemma StaticDownKeepsShape(n: Trie, rest: string, numParams: Uint8, c: Trie)
    requires Shape(n) && !n.wildChild && rest != "" && |n.indices| <= |n.children|
    requires n.nType.ParamNode? ==> rest[0] != '/' || |n.children| != 1
    requires NextStatic(n, rest, numParams).Down?
    requires var m := NextStatic(n, rest, numParams);
             m.pos < |m.n.children| && SameRole(m.n.children[m.pos], c)
    requires Shape(c)
    ensures var m := NextStatic(n, rest, numParams);
            Shape(m.n.(children := m.n.children[m.pos := c])) && SameRole(n, m.n)
  {
    var k := IndexOf(n.indices, rest[0]);
    if n.nType.StaticNode? {
      BumpKeepsShape(n, k, c);
    } else {
      assert n.nType.CatchAllNode? && k == 0 && |n.children| == 1;
      var (b, pos) := BumpChild(n, k);
      assert b.children[pos := c] == n.children[0 := c] && b.indices == n.indices;
      ReplaceChildShape(n, 0, c);
    }
  }

  lemma HangBelowKeepsShape(n: Trie, rest: string, numParams: Uint8, h: Handlers)
    requires Shape(n) && !n.wildChild && rest != "" && |n.indices| <= |n.children|
    requires CountWild(rest) == numParams
    requires HoldsWildcard(n) ==> rest[0] == '/' && (n.nType.ParamNode? ==> n.children == [])
    requires n.nType.StaticNode? && n.path == "" ==> rest[0] == '/'
    requires NextStatic(n, rest, numParams).HangBelow?
    ensures var m := NextStatic(n, rest, numParams);
            var r := InsertChild(m.n.children[m.pos], numParams, rest, h);
            SameRole(n, m.n) && (r.Some? ==> Shape(m.n.(children := m.n.children[m.pos := r.value])))
  {
    var m := NextStatic(n, rest, numParams);
    var r := InsertChild(m.n.children[m.pos], numParams, rest, h);
    if r.Some? {
      assert m.n.children[m.pos] == Enter(EmptyTrie.(maxParams := numParams));
      InsertChildFreshShape(m.n.children[m.pos], numParams, rest, h);
      assert Indexed(r.value, rest[0]);
      if n.nType.StaticNode? {
        NotAnIndex(n.indices, rest[0]);
        AppendKeepsShape(n, rest[0], numParams, r.value);
      } else {
        NoSlashIndex(n, rest);
        AppendSlash(n, numParams, r.value);
      }
    }
  }

  lemma NotAnIndex(s: string, c: char)
    requires IndexOf(s, c) == |s|
    ensures c !in s
  {
    assert s[..|s|] == s;
  }

  lemma NoSlashIndex(n: Trie, rest: string)
    requires LocalShape(n) && HoldsWildcard(n) && rest != "" && rest[0] == '/'
    requires IndexOf(n.indices, rest[0]) == |n.indices|
    requires n.nType.ParamNode? ==> n.children == []
    ensures n.children == []
  {
  }

  lemma HangHereKeepsShape(n: Trie, rest: string, numParams: Uint8, h: Handlers)
    requires Shape(n) && n.nType.StaticNode? && !n.wildChild && rest != ""
    requires CountWild(rest) == numParams && IsWild(rest[0])
    ensures var r := InsertChild(n, numParams, rest, h);
            r.Some? ==> Shape(r.value) && SameRole(n, r.value)
  {
    var r := InsertChild(n, numParams, rest, h);
    if r.Some? {
      assert FirstWild(rest) == 0;
      assert n.children == [] && rest[0] == ':';
      InsertParamShape(n, numParams, rest, h, 0, WildEnd(rest, 0));
    }
  }

  /** What is known at a node once its own path has been passed and `rest` remains. */
  predicate Passed(n: Trie, rest: string, numParams: Uint8) {
    && Shape(n) && Walkable(n)
    && CountWild(rest) == numParams
    && (rest != "" ==>
          && (HoldsWildcard(n) ==> rest[0] == '/')
          && (CatchAllHead(n) ==> rest[0] == '/')
          && (n.nType.StaticNode? && n.path == "" ==> rest[0] == '/'))
  }

  /** Only a static edge can part from the path, and not at its first byte. */
  lemma SplitPoint(t: Trie, path: string)
    requires LocalShape(t) && Enterable(t, path)
    ensures var i := CommonPrefix(path, t.path);
            && (i < |t.path| ==> t.nType.StaticNode? && 0 < i)
            && (HoldsWildcard(t) && i < |path| ==> path[i] == '/')
  {
    if HoldsWildcard(t) { PrefixOf(t.path, path); }
  }

  lemma SplitAtShape(entered: Trie, path: string, numParams: Uint8)
    requires Shape(entered) && entered.priority > 0 && Enterable(entered, path)
    ensures var n := SplitAt(RaiseMax(entered, numParams), path);
            var i := CommonPrefix(path, entered.path);
            Shape(n) && Walkable(n) && (HoldsWildcard(n) && i < |path| ==> path[i] == '/')
  {
    EnterKeepsShape(entered, numParams);
    SplitPoint(entered, path);
    var t := RaiseMax(entered, numParams);
    var i := CommonPrefix(path, t.path);
    if i < |t.path| {
      SplitKeepsShape(t, i);
    } else if !t.wildChild {
      IndicesFit(t);
    }
  }

  /** Where the walk would append a child, every child has its index byte. */
  lemma IndicesMatch(n: Trie, rest: string)
    requires LocalShape(n) && !n.wildChild && rest != ""
    requires HoldsWildcard(n) ==> rest[0] == '/'
    requires n.nType.ParamNode? ==> rest[0] != '/' || |n.children| != 1
    ensures |n.indices| == |n.children|
  {
  }

  lemma SplitKeepsShapeAt(entered: Trie, path: string, numParams: Uint8)
    requires Shape(entered) && entered.priority > 0 && Enterable(entered, path)
    requires Counted(entered, path, numParams)
    ensures var n := SplitAt(RaiseMax(entered, numParams), path);
            var i := CommonPrefix(path, entered.path);
            Passed(n, path[i..], numParams) && SameRole(entered, n) && (i == |path| ==> n.path != "")
  {
    EnterKeepsShape(entered, numParams);
    RestCounted(entered, path, numParams);
    WildcardPath(entered);
    var t := RaiseMax(entered, numParams);
    var i := CommonPrefix(path, t.path);
    if i < |t.path| {
      SplitKeepsShape(t, i);
    } else if !t.wildChild {
      IndicesFit(t);
    }
  }

  lemma DownKeepsShape(n: Trie, rest: string, numParams: Uint8, c: Trie)
    requires rest != "" && Passed(n, rest, numParams) && NextAt(n, rest, numParams).Down?
    requires var m := NextAt(n, rest, numParams);
             m.pos < |m.n.children| && SameRole(m.n.children[m.pos], c)
    requires Shape(c)
    ensures var m := NextAt(n, rest, numParams);
            var r := m.n.(children := m.n.children[m.pos := c]);
            Shape(r) && SameRole(n, r)
  {
    if n.wildChild {
      WildDownKeepsShape(n, rest, numParams, c);
    } else if n.nType.ParamNode? && rest[0] == '/' && |n.children| == 1 {
      SlashDownKeepsShape(n, c);
    } else {
      StaticDownKeepsShape(n, rest, numParams, c);
    }
  }

  lemma DownCountedAt(n: Trie, rest: string, numParams: Uint8)
    requires rest != "" && Passed(n, rest, numParams)
    requires var m := NextAt(n, rest, numParams); m.Down? && m.pos < |m.n.children|
    ensures var m := NextAt(n, rest, numParams);
            Counted(m.n.children[m.pos], m.rest, m.numParams)
  {
    DownCounted(n, rest, numParams);
  }

  lemma HangKeepsShape(n: Trie, rest: string, numParams: Uint8, h: Handlers)
    requires rest != "" && Passed(n, rest, numParams)
    requires var m := NextAt(n, rest, numParams); m.HangBelow? || m.HangHere?
    ensures var m := NextAt(n, rest, numParams);
            var r := if m.HangBelow? then WithChild(m.n, m.pos, InsertChild(m.n.children[m.pos], numParams, m.rest, h))
                     else InsertChild(m.n, numParams, m.rest, h);
            r.Some? ==> Shape(r.value) && SameRole(n, r.value)
  {
    hide InsertChild;
    var m := NextAt(n, rest, numParams);
    if m.HangBelow? {
      HangBelowKeepsShape(n, rest, numParams, h);
    } else {
      StaticHang(n, rest, numParams);
      HangHereKeepsShape(n, rest, numParams, h);
    }
  }

  lemma StaticHang(n: Trie, rest: string, numParams: Uint8)
    requires rest != "" && Passed(n, rest, numParams) && NextAt(n, rest, numParams).HangHere?
    ensures n.nType.StaticNode? && !n.wildChild && IsWild(rest[0])
    ensures NextAt(n, rest, numParams).n == n && NextAt(n, rest, numParams).rest == rest
  {
  }

  lemma {:induction false} WalkKeepsShape(entered: Trie, path: string, numParams: Uint8, h: Handlers)
    requires Shape(entered) && entered.priority > 0 && Enterable(entered, path)
    requires Counted(entered, path, numParams)
    ensures var r := Walk(entered, path, numParams, h);
            r.Some? ==> Shape(r.value) && SameRole(entered, r.value)
    decreases Height(entered)
  {
    SplitKeepsShapeAt(entered, path, numParams);
    var n := SplitAt(RaiseMax(entered, numParams), path);
    var i := CommonPrefix(path, entered.path);
    if i == |path| {
      if n.handlers == None { LeafShape(n, h); }
    } else {
      var m := NextAt(n, path[i..], numParams);
      match m
      case Down(_, _, _, _) =>
        NextGoesDown(entered, path, numParams);
        DownCountedAt(n, path[i..], numParams);
        WalkKeepsShape(m.n.children[m.pos], m.rest, m.numParams, h);
        var c := Walk(m.n.children[m.pos], m.rest, m.numParams, h);
        if c.Some? { DownKeepsShape(n, path[i..], numParams, c.value); }
      case HangBelow(_, _, _) => HangKeepsShape(n, path[i..], numParams, h);
      case HangHere(_, _) => HangKeepsShape(n, path[i..], numParams, h);
      case Conflict =>
    }
  }
}
