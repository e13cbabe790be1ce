/**
 The routing tree as a value: what addRoute, insertChild and getValue compute.
 A panic is the result None.  RouterNode.dfy proves the in-place code equal to these functions.
 */
module RouteTrie {
  import opened Common
  import opened RoutePattern

  type Uint8 = n: nat | n < 256

  /** A non-empty chain of handlers, known only by its identity. */
  type Handlers = nat

  datatype NodeType = StaticNode | ParamNode | CatchAllNode

  datatype Trie = Trie(
    path: string,
    wildChild: bool,
    nType: NodeType,
    maxParams: Uint8,
    indices: string,
    children: seq<Trie>,
    handlers: Option<Handlers>,
    priority: nat)

  const EmptyTrie := Trie("", false, StaticNode, 0, "", [], None, 0)

  // ---------------------------------------------------------------- shape

  /** The first byte of everything stored at or below a node. */
  function First(t: Trie): char {
    if t.path == "" then '/' else t.path[0]
  }

  predicate CatchAllHead(t: Trie) {
    t.nType.CatchAllNode? && t.wildChild
  }

  /** A child that is found through the index byte `c`. */
  predicate Indexed(t: Trie, c: char) {
    !IsWild(c) && First(t) == c && (t.nType.StaticNode? || CatchAllHead(t))
  }

  /** Distinct index bytes, one for each child. */
  predicate IndexedBy(children: seq<Trie>, indices: string) {
    && |indices| == |children|
    && (forall i :: 0 <= i < |children| ==> Indexed(children[i], indices[i]))
    && (forall i, j :: 0 <= i < j < |indices| ==> indices[i] != indices[j])
  }

  predicate StaticShape(t: Trie) {
    && NoWild(t.path)
    && (if t.wildChild then
          t.path != "" && t.indices == "" && |t.children| == 1 && t.children[0].nType.ParamNode?
        else
          && IndexedBy(t.children, t.indices)
          && (t.path == "" ==> t.handlers == None && t.indices == "/" && CatchAllHead(t.children[0])))
  }

  /** At most one child, and it starts with '/'. */
  predicate SlashChild(t: Trie) {
    && |t.children| <= 1
    && (|t.children| == 1 ==> Indexed(t.children[0], '/'))
  }

  predicate ParamShape(t: Trie) {
    && !t.wildChild
    && |t.path| >= 2 && t.path[0] == ':' && NoWild(t.path[1..]) && '/' !in t.path[1..]
    && SlashChild(t)
    && (t.indices == "" || (t.indices == "/" && |t.children| == 1))
  }

  predicate CatchAllShape(t: Trie) {
    if t.wildChild then
      && t.path == "" && t.indices == "" && t.handlers == None
      && |t.children| == 1 && t.children[0].nType.CatchAllNode? && !t.children[0].wildChild
    else
      && |t.path| >= 3 && t.path[..2] == "/*" && NoWild(t.path[2..]) && '/' !in t.path[2..]
      && t.handlers.Some?
      && SlashChild(t)
      && t.indices == (if |t.children| == 1 then "/" else "")
  }

  /** Every node is there for a route. */
  predicate Used(t: Trie) {
    t.handlers.Some? || t.children != []
  }

  predicate LocalShape(t: Trie) {
    Used(t) &&
    match t.nType
    case StaticNode => StaticShape(t)
    case ParamNode => ParamShape(t)
    case CatchAllNode => CatchAllShape(t)
  }

  /** The shape of the tree of one HTTP method after at least one registration. */
  predicate RootShape(t: Trie) {
    Shape(t) && t.nType.StaticNode? && First(t) == '/'
  }

  predicate Shape(t: Trie) {
    LocalShape(t) && forall i :: 0 <= i < |t.children| ==> Shape(t.children[i])
  }

  /** A node that holds a wildcard of its own. */
  predicate HoldsWildcard(t: Trie) {
    !t.nType.StaticNode? && !t.wildChild
  }

  function Own(t: Trie): nat {
    if HoldsWildcard(t) then 1 else 0
  }

  ghost function Height(t: Trie): nat {
    1 + MaxHeight(t.children)
  }

  ghost function MaxHeight(ts: seq<Trie>): nat {
    if ts == [] then 0 else Max(Height(ts[0]), MaxHeight(ts[1..]))
  }

  lemma {:induction false} ChildIsLower(ts: seq<Trie>, i: nat)
    requires i < |ts|
    ensures Height(ts[i]) <= MaxHeight(ts)
  {
    if i > 0 { ChildIsLower(ts[1..], i - 1); }
  }

  // ---------------------------------------------------------------- registration

  function CountParams(path: string): Uint8 {
    Min(CountWild(path), 255)
  }

  function CommonPrefix(a: string, b: string): (n: nat)
    ensures n <= |a| && n <= |b| && a[..n] == b[..n]
    ensures n < |a| && n < |b| ==> a[n] != b[n]
  {
    if a == "" || b == "" || a[0] != b[0] then 0 else
      var n := CommonPrefix(a[1..], b[1..]);
      assert a[..n + 1] == [a[0]] + a[1..][..n] && b[..n + 1] == [b[0]] + b[1..][..n];
      1 + n
  }

  /** The position of `c` in `s`, or |s|. */
  function IndexOf(s: string, c: char): (i: nat)
    ensures i <= |s| && (i < |s| ==> s[i] == c)
    ensures c !in s[..i]
  {
    if s == "" || s[0] == c then 0 else
      var i := IndexOf(s[1..], c);
      assert s[..i + 1] == [s[0]] + s[1..][..i];
      1 + i
  }

  function MaxOfMaxParams(ts: seq<Trie>): Uint8 {
    if ts == [] then 0 else
      var m := MaxOfMaxParams(ts[1..]);
      if ts[0].maxParams > m then ts[0].maxParams else m
  }

  /** Splits the edge into `t` after `i` bytes; `t` has already been counted for the new route. */
  function SplitEdge(t: Trie, i: nat): Trie
    requires i < |t.path| && t.priority > 0
  {
    var child := Trie(t.path[i..], t.wildChild, StaticNode, MaxOfMaxParams(t.children),
                      t.indices, t.children, t.handlers, t.priority - 1);
    t.(path := t.path[..i], wildChild := false, indices := [t.path[i]], children := [child], handlers := None)
  }

  /** Where a child of the given priority ends up when it moves towards the front. */
  function FrontPos(ts: seq<Trie>, pos: nat, prio: nat): (p: nat)
    requires pos <= |ts|
    ensures p <= pos
  {
    if pos > 0 && ts[pos - 1].priority < prio then FrontPos(ts, pos - 1, prio) else pos
  }

  /** Moves the element at `pos` forward to `newPos`. */
  function MoveUp<T>(s: seq<T>, pos: nat, newPos: nat): (r: seq<T>)
    requires newPos <= pos < |s|
    ensures |r| == |s|
  {
    s[..newPos] + [s[pos]] + s[newPos..pos] + s[pos + 1..]
  }

  /** The node after incrementChildPrio(pos), with the new position of the child. */
  function BumpChild(t: Trie, pos: nat): (r: (Trie, nat))
    requires pos < |t.children| && pos < |t.indices|
    requires |t.indices| <= |t.children|
    ensures r.1 <= pos
    ensures |r.0.children| == |t.children|
    ensures r.0.children[r.1] == t.children[pos].(priority := t.children[pos].priority + 1)
  {
    var c := t.children[pos].(priority := t.children[pos].priority + 1);
    var newPos := FrontPos(t.children, pos, c.priority);
    (t.(children := MoveUp(t.children[pos := c], pos, newPos), indices := MoveUp(t.indices, pos, newPos)), newPos)
  }

  /** The node after appending a fresh child under index byte `c`; the child stands at the returned position. */
  function AppendChild(t: Trie, c: char, numParams: Uint8): (r: (Trie, nat))
    requires |t.indices| == |t.children|
    ensures r.1 < |r.0.children|
  {
    BumpChild(t.(indices := t.indices + [c], children := t.children + [EmptyTrie.(maxParams := numParams)]),
              |t.indices|)
  }

  /** The position of the first ':' or '*', or the length. */
  function FirstWild(s: string): (i: nat)
    ensures i <= |s| && NoWild(s[..i])
    ensures i < |s| ==> IsWild(s[i])
  {
    if s == "" || IsWild(s[0]) then 0 else
      var i := FirstWild(s[1..]);
      assert s[..i + 1] == [s[0]] + s[1..][..i];
      1 + i
  }

  /** The end of the wildcard that starts at `i`: the next '/' or the end of the pattern. */
  function WildEnd(path: string, i: nat): (end: nat)
    requires i < |path|
    ensures i < end <= |path|
    ensures end < |path| ==> path[end] == '/'
    ensures '/' !in path[i + 1..end]
  {
    var e := SegmentEnd(path[i + 1..]);
    assert path[i + 1..i + 1 + e] == path[i + 1..][..e];
    i + 1 + e
  }

  function Decrement(n: Uint8): Uint8 {
    if n == 0 then 255 else n - 1
  }

  /** insertChild: hangs the rest of a pattern below `t`, or None for a panic. */
  function InsertChild(t: Trie, numParams: Uint8, path: string, h: Handlers): Option<Trie>
    decreases |path|
  {
    if numParams == 0 then
      Some(t.(path := path, handlers := Some(h)))
    else
      var i := FirstWild(path);
      if i == |path| then None else
      var end := WildEnd(path, i);
      if !NoWild(path[i + 1..end]) || |t.children| > 0 || end - i < 2 then None
      else if path[i] == ':' then
        var child := EmptyTrie.(nType := ParamNode, maxParams := numParams, priority := 1, path := path[i..end]);
        var parent := t.(path := if i > 0 then path[..i] else t.path, wildChild := true);
        if end < |path| then
          match InsertChild(EmptyTrie.(maxParams := numParams - 1, priority := 1), numParams - 1, path[end..], h)
          case None => None
          case Some(rest) => Some(parent.(children := [child.(children := [rest])]))
        else if numParams > 1 then None
        else Some(parent.(children := [child.(handlers := Some(h))]))
      else if end != |path| || numParams > 1 || (t.path != "" && t.path[|t.path| - 1] == '/') || i == 0 ||
          path[i - 1] != '/' then
        None
      else
        var leaf := Trie(path[i - 1..], false, CatchAllNode, 1, "", [], Some(h), 1);
        var head := Trie("", true, CatchAllNode, 1, "", [leaf], None, 1);
        Some(t.(path := path[..i - 1], children := [head], indices := [path[i - 1]]))
  }

  /** `t` has just been entered: its priority counts the new route. */
  function Enter(t: Trie): Trie {
    t.(priority := t.priority + 1)
  }

  function RaiseMax(t: Trie, numParams: Uint8): Trie {
    if numParams > t.maxParams then t.(maxParams := numParams) else t
  }

  /** What is left of `path` can be stored at or below `t`. */
  predicate Enterable(t: Trie, path: string) {
    if HoldsWildcard(t) then
      t.path <= path && (|t.path| == |path| || path[|t.path|] == '/')
    else
      path != "" && path[0] == First(t)
  }

  /** Replaces one child by the result of registering below it, or None. */
  function WithChild(t: Trie, k: nat, r: Option<Trie>): Option<Trie>
    requires k < |t.children|
  {
    match r
    case None => None
    case Some(c) => Some(t.(children := t.children[k := c]))
  }

  /** Counting a route at a node does not change the shape. */
  lemma EnterKeepsShape(t: Trie, numParams: Uint8)
    requires Shape(t)
    ensures Shape(Enter(t)) && Shape(RaiseMax(Enter(t), numParams)) && Shape(RaiseMax(t, numParams))
  {
    assert LocalShape(Enter(t));
    assert LocalShape(RaiseMax(Enter(t), numParams));
    assert LocalShape(RaiseMax(t, numParams));
  }

  /** What one turn of the walk loop of addRoute decides, after updating the node it stands at. */
  datatype Move =
    | Leaf(n: Trie)                                               // the pattern ends here
    | Down(n: Trie, pos: nat, rest: string, numParams: Uint8)     // walk on at n.children[pos], already entered
    | HangBelow(n: Trie, pos: nat, rest: string)                  // insertChild at the fresh n.children[pos]
    | HangHere(n: Trie, rest: string)                             // insertChild at n
    | Conflict                                                    // panic

  function NextWild(n: Trie, rest: string, numParams: Uint8): Move
    requires |n.children| == 1
  {
    var w := RaiseMax(Enter(n.children[0]), numParams);
    if w.path <= rest && (|w.path| == |rest| || rest[|w.path|] == '/') then
      Down(n.(children := [w]), 0, rest, Decrement(numParams))
    else
      Conflict
  }

  function NextStatic(n: Trie, rest: string, numParams: Uint8): (m: Move)
    requires rest != "" && |n.indices| <= |n.children|
    ensures m.HangBelow? ==> m.pos < |m.n.children|
  {
    var k := IndexOf(n.indices, rest[0]);
    if k < |n.indices| then
      var (b, pos) := BumpChild(n, k);
      Down(b, pos, rest, numParams)
    else if !IsWild(rest[0]) && |n.indices| == |n.children| then
      var (a, pos) := AppendChild(n, rest[0], numParams);
      HangBelow(a, pos, rest)
    else
      HangHere(n, rest)
  }

  /** The child counts that the walk relies on when it picks a child. */
  predicate Walkable(n: Trie) {
    if n.wildChild then |n.children| == 1 else |n.indices| <= |n.children|
  }

  /** The turn of the loop after the node's own path has been passed; `rest` is not empty. */
  function NextAt(n: Trie, rest: string, numParams: Uint8): (m: Move)
    requires Walkable(n) && rest != ""
    ensures m.HangBelow? ==> m.pos < |m.n.children|
    ensures !m.Leaf?
  {
    if n.wildChild then NextWild(n, rest, numParams)
    else if n.nType.ParamNode? && rest[0] == '/' && |n.children| == 1 then
      Down(n.(children := [Enter(n.children[0])]), 0, rest, numParams)
    else NextStatic(n, rest, numParams)
  }

  /** The node after its edge has been split where `path` parts from it. */
  function SplitAt(t: Trie, path: string): Trie
    requires t.priority > 0
  {
    var i := CommonPrefix(path, t.path);
    if i < |t.path| then SplitEdge(t, i) else t
  }

  function Next(entered: Trie, path: string, numParams: Uint8): (m: Move)
    requires LocalShape(entered) && entered.priority > 0
    ensures m.HangBelow? ==> m.pos < |m.n.children|
  {
    var n := SplitAt(RaiseMax(entered, numParams), path);
    var i := CommonPrefix(path, entered.path);
    if i == |path| then Leaf(n) else NextAt(n, path[i..], numParams)
  }

  /** If the walk goes down, it goes into a lower node that can take the rest of the pattern. */
  ghost predicate DownIsGood(m: Move, height: nat) {
    m.Down? ==>
      && m.pos < |m.n.children|
      && var c := m.n.children[m.pos];
      && c.priority > 0 && Shape(c) && Enterable(c, m.rest) && Height(c) < height
  }

  lemma NextWildIsGood(n: Trie, rest: string, numParams: Uint8)
    requires Shape(n) && n.wildChild && rest != ""
    requires n.nType.CatchAllNode? ==> rest[0] == '/'
    ensures DownIsGood(NextWild(n, rest, numParams), Height(n))
  {
    EnterKeepsShape(n.children[0], numParams);
    ChildIsLower(n.children, 0);
    assert Height(RaiseMax(Enter(n.children[0]), numParams)) == Height(n.children[0]);
    assert HoldsWildcard(n.children[0]);
  }

  lemma NextSlashIsGood(n: Trie, rest: string, numParams: Uint8)
    requires Shape(n) && n.nType.ParamNode? && |n.children| == 1 && rest != "" && rest[0] == '/'
    ensures DownIsGood(Down(n.(children := [Enter(n.children[0])]), 0, rest, numParams), Height(n))
  {
    EnterKeepsShape(n.children[0], numParams);
    ChildIsLower(n.children, 0);
    assert Height(Enter(n.children[0])) == Height(n.children[0]);
    assert Indexed(n.children[0], '/');
  }

  lemma IndexedChild(n: Trie, k: nat)
    requires Shape(n) && !n.wildChild && k < |n.indices|
    ensures k < |n.children| && Indexed(n.children[k], n.indices[k]) && Shape(n.children[k])
  {
  }

  lemma IndicesFit(n: Trie)
    requires LocalShape(n) && !n.wildChild
    ensures |n.indices| <= |n.children|
  {
  }

  lemma EnteredIsGood(n: Trie, pos: nat, c: Trie, rest: string, numParams: Uint8, height: nat)
    requires pos < |n.children| && n.children[pos] == Enter(c)
    requires Shape(Enter(c)) && Enterable(Enter(c), rest) && Height(c) < height
    ensures DownIsGood(Down(n, pos, rest, numParams), height)
  {
    assert Height(Enter(c)) == Height(c);
  }

  lemma NextStaticIsGood(n: Trie, rest: string, numParams: Uint8)
    requires |n.indices| <= |n.children| && rest != ""
    requires var k := IndexOf(n.indices, rest[0]);
             k < |n.indices| ==> Indexed(n.children[k], rest[0]) && Shape(Enter(n.children[k]))
    ensures DownIsGood(NextStatic(n, rest, numParams), Height(n))
  {
    var k := IndexOf(n.indices, rest[0]);
    if k < |n.indices| {
      var c := n.children[k];
      ChildIsLower(n.children, k);
      var (b, pos) := BumpChild(n, k);
      EnteredIsGood(b, pos, c, rest, numParams, Height(n));
    }
  }

  /** Where the paths part inside an edge, the walk ends. */
  lemma SplitEndsWalk(t: Trie, i: nat, rest: string, numParams: Uint8)
    requires i < |t.path| && t.priority > 0 && rest != "" && rest[0] != t.path[i]
    ensures !NextStatic(SplitEdge(t, i), rest, numParams).Down?
  {
  }

  lemma NextGoesDown(entered: Trie, path: string, numParams: Uint8)
    requires Shape(entered) && entered.priority > 0 && Enterable(entered, path)
    ensures DownIsGood(Next(entered, path, numParams), Height(entered))
  {
    hide NextWild, NextStatic;
    EnterKeepsShape(entered, numParams);
    var t := RaiseMax(entered, numParams);
    var i := CommonPrefix(path, t.path);
    if i < |path| {
      if i < |t.path| {
        SplitEndsWalk(t, i, path[i..], numParams);
      } else if t.wildChild {
        NextWildIsGood(t, path[i..], numParams);
      } else if t.nType.ParamNode? && path[i] == '/' && |t.children| == 1 {
        NextSlashIsGood(t, path[i..], numParams);
      } else {
        IndicesFit(t);
        var k := IndexOf(t.indices, path[i]);
        if k < |t.indices| {
          IndexedChild(t, k);
          EnterKeepsShape(t.children[k], numParams);
        }
        NextStaticIsGood(t, path[i..], numParams);
      }
    }
  }

  /** The walk loop of addRoute from a node that has just been entered. */
  ghost function Walk(entered: Trie, path: string, numParams: Uint8, h: Handlers): Option<Trie>
    requires Shape(entered) && entered.priority > 0 && Enterable(entered, path)
    decreases Height(entered)
  {
    match Next(entered, path, numParams)
    case Leaf(n) =>
      if n.handlers.Some? then None else Some(n.(handlers := Some(h)))
    case Down(n, pos, rest, np) =>
      NextGoesDown(entered, path, numParams);
      WithChild(n, pos, Walk(n.children[pos], rest, np, h))
    case HangBelow(n, pos, rest) =>
      WithChild(n, pos, InsertChild(n.children[pos], numParams, rest, h))
    case HangHere(n, rest) =>
      InsertChild(n, numParams, rest, h)
    case Conflict => None
  }

  /** addRoute */
  ghost function AddRoute(t: Trie, path: string, h: Handlers): Option<Trie>
    requires path != "" && path[0] == '/'
    requires t == EmptyTrie || RootShape(t)
  {
    if t.path != "" || |t.children| > 0 then
      Walk(Enter(t), path, CountParams(path), h)
    else
      InsertChild(Enter(t), CountParams(path), path, h)
  }

  // ---------------------------------------------------------------- lookup

  /** getValue: the handlers found for `path` and the parameters saved on the way after `ps`. */
  function Lookup(t: Trie, path: string, ps: seq<Param>): Option<(Handlers, seq<Param>)>
    requires Shape(t)
  {
    if |path| > |t.path| then
      if !(t.path <= path) then None else
      var rest := path[|t.path|..];
      if !t.wildChild then
        var k := IndexOf(t.indices, rest[0]);
        if k < |t.indices| then Lookup(t.children[k], rest, ps) else None
      else
        var w := t.children[0];
        assert Shape(w);
        if w.nType.ParamNode? then
          var end := SegmentEnd(rest);
          var ps' := ps + [Param(w.path[1..], rest[..end])];
          if end < |rest| then
            if |w.children| > 0 then Lookup(w.children[0], rest[end..], ps') else None
          else if w.handlers.Some? then Some((w.handlers.value, ps')) else None
        else
          if w.handlers.Some? then Some((w.handlers.value, ps + [Param(w.path[2..], rest)])) else None
    else if path == t.path && t.handlers.Some? then
      Some((t.handlers.value, ps))
    else
      None
  }

  // ---------------------------------------------------------------- the routes a tree stores

  /** `q` with handlers `h` is stored at or below `t`; `q` is relative to the parent of `t`. */
  predicate HasRoute(t: Trie, q: string, h: Handlers) {
    t.path <= q &&
    var s := q[|t.path|..];
    || (s == "" && t.handlers == Some(h))
    || exists i :: 0 <= i < |t.children| && HasRoute(t.children[i], s, h)
  }
}
