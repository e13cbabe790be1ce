/**
 The routing tree in place: nodes whose fields addRoute rewrites.
 Each method is proved equal to the function of RouteTrie.dfy that describes it.  The walking
 loop of addRoute and the loop of insertChild, which move on to a child node, are tail calls here.
 */
module RouterNode {
  import opened Common
  import opened RoutePattern
  import opened RouteTrie
  import opened RouteTrieShape
  import opened RouteTrieCounts
  import opened RouteTrieLookup
  import opened CaseInsensitive

  // ---------------------------------------------------------------- scanning loops

  lemma {:induction false} CommonPrefixIs(a: string, b: string, n: nat)
    requires n <= |a| && n <= |b| && a[..n] == b[..n]
    requires n < |a| && n < |b| ==> a[n] != b[n]
    ensures CommonPrefix(a, b) == n
  {
    if n > 0 {
      assert a[..n][0] == a[0] && b[..n][0] == b[0];
      assert a[1..][..n - 1] == a[..n][1..] && b[1..][..n - 1] == b[..n][1..];
      CommonPrefixIs(a[1..], b[1..], n - 1);
    }
  }

  method FindCommonPrefix(a: string, b: string) returns (i: nat)
    ensures i == CommonPrefix(a, b)
  {
    i := 0;
    var max := Min(|a|, |b|);
    while i < max && a[i] == b[i]
      invariant i <= max && a[..i] == b[..i]
    {
      i := i + 1;
    }
    CommonPrefixIs(a, b, i);
  }

  lemma {:induction false} FirstWildIs(s: string, i: nat)
    requires i <= |s| && NoWild(s[..i]) && (i < |s| ==> IsWild(s[i]))
    ensures FirstWild(s) == i
  {
    if i > 0 {
      assert s[..i][0] == s[0];
      assert s[1..][..i - 1] == s[..i][1..];
      FirstWildIs(s[1..], i - 1);
    }
  }

  method FindWildcard(s: string) returns (i: nat)
    ensures i == FirstWild(s)
  {
    i := 0;
    while i < |s| && !IsWild(s[i])
      invariant i <= |s| && NoWild(s[..i])
    {
      i := i + 1;
    }
    FirstWildIs(s, i);
  }

  lemma {:induction false} SegmentEndIs(s: string, e: nat)
    requires e <= |s| && (forall k :: 0 <= k < e ==> s[k] != '/') && (e < |s| ==> s[e] == '/')
    ensures SegmentEnd(s) == e
  {
    if e > 0 { SegmentEndIs(s[1..], e - 1); }
  }

  /** Finds the end of the wildcard at `i`; it is not clean if another wildcard starts inside it. */
  method FindWildEnd(path: string, i: nat) returns (end: nat, clean: bool)
    requires i < |path|
    ensures clean <==> NoWild(path[i + 1..WildEnd(path, i)])
    ensures clean ==> end == WildEnd(path, i)
  {
    end := i + 1;
    clean := true;
    while end < |path| && path[end] != '/'
      invariant i < end <= |path|
      invariant forall k :: i < k < end ==> path[k] != '/' && !IsWild(path[k])
    {
      if IsWild(path[end]) {
        InsideWild(path, i, end);
        return end, false;
      }
      end := end + 1;
    }
    SegmentEndIs(path[i + 1..], end - i - 1);
  }

  lemma InsideWild(path: string, i: nat, k: nat)
    requires i < k < |path| && (forall j :: i < j <= k ==> path[j] != '/') && IsWild(path[k])
    ensures !NoWild(path[i + 1..WildEnd(path, i)])
  {
    var end := WildEnd(path, i);
    assert end > k;
    assert path[i + 1..end][k - i - 1] == path[k];
  }

  method FindSegmentEnd(s: string) returns (end: nat)
    ensures end == SegmentEnd(s)
  {
    end := 0;
    while end < |s| && s[end] != '/'
      invariant end <= |s| && forall k :: 0 <= k < end ==> s[k] != '/'
    {
      end := end + 1;
    }
    SegmentEndIs(s, end);
  }

  lemma {:induction false} IndexOfIs(s: string, c: char, i: nat)
    requires i <= |s| && c !in s[..i] && (i < |s| ==> s[i] == c)
    ensures IndexOf(s, c) == i
  {
    if i > 0 {
      assert s[..i][0] == s[0];
      assert s[1..][..i - 1] == s[..i][1..];
      IndexOfIs(s[1..], c, i - 1);
    }
  }

  method FindIndex(s: string, c: char) returns (i: nat)
    ensures i == IndexOf(s, c)
  {
    i := 0;
    while i < |s| && s[i] != c
      invariant i <= |s| && c !in s[..i]
    {
      i := i + 1;
    }
    IndexOfIs(s, c, i);
  }

  /** countParams */
  method CountWildcards(path: string) returns (n: Uint8)
    ensures n == CountParams(path)
  {
    var count := 0;
    for i := 0 to |path|
      invariant count == CountWild(path[..i])
    {
      CountWildConcat(path[..i], [path[i]]);
      assert path[..i + 1] == path[..i] + [path[i]];
      assert CountWild([path[i]]) == (if IsWild(path[i]) then 1 else 0) + CountWild([path[i]][1..]);
      if path[i] != ':' && path[i] != '*' {
        continue;
      }
      count := count + 1;
    }
    assert path[..|path|] == path;
    n := if count >= 255 then 255 else count;
  }

  /** What comes of a turn of the walk that does not end at the node itself, and of everything after it. */
  ghost function Finish(m: Move, numParams: Uint8, h: Handlers, height: nat): Option<Trie>
    requires DownIsGood(m, height) && !m.Leaf?
    requires m.HangBelow? ==> m.pos < |m.n.children|
  {
    match m
    case Down(n, pos, rest, np) => WithChild(n, pos, Walk(n.children[pos], rest, np, h))
    case HangBelow(n, pos, rest) => WithChild(n, pos, InsertChild(n.children[pos], numParams, rest, h))
    case HangHere(n, rest) => InsertChild(n, numParams, rest, h)
    case Conflict => None
  }

  /** One turn of the walk, in terms of the node after its edge has been split. */
  lemma WalkTurn(entered: Trie, path: string, numParams: Uint8, h: Handlers)
    requires Shape(entered) && entered.priority > 0 && Enterable(entered, path)
    ensures var n := SplitAt(RaiseMax(entered, numParams), path);
            var i := CommonPrefix(path, entered.path);
            var r := Walk(entered, path, numParams, h);
            if i == |path| then
              r == if n.handlers.Some? then None else Some(n.(handlers := Some(h)))
            else
              && LocalShape(n) && Walkable(n) && (HoldsWildcard(n) ==> path[i] == '/')
              && DownIsGood(NextAt(n, path[i..], numParams), Height(entered))
              && r == Finish(NextAt(n, path[i..], numParams), numParams, h, Height(entered))
  {
    NextGoesDown(entered, path, numParams);
    SplitAtShape(entered, path, numParams);
    hide NextAt, SplitAt, Enterable;
  }

  /** insertChild at a catch-all. */
  lemma CatchAllCase(t: Trie, numParams: Uint8, path: string, h: Handlers, i: nat, end: nat)
    requires numParams > 0 && t.children == [] && i == FirstWild(path) && i < |path| && path[i] != ':'
    requires end == WildEnd(path, i) && NoWild(path[i + 1..end]) && end - i >= 2
    ensures InsertChild(t, numParams, path, h) ==
            if end != |path| || numParams > 1 || (t.path != "" && t.path[|t.path| - 1] == '/') || i == 0 ||
                path[i - 1] != '/' then None
            else Some(t.(path := path[..i - 1], indices := [path[i - 1]],
                         children := [Trie("", true, CatchAllNode, 1, "",
                                           [Trie(path[i - 1..], false, CatchAllNode, 1, "", [], Some(h), 1)],
                                           None, 1)]))
  {
  }

  /** insertChild at a parameter. */
  lemma ParamCase(t: Trie, numParams: Uint8, path: string, h: Handlers, i: nat, end: nat)
    requires numParams > 0 && t.children == [] && i == FirstWild(path) && i < |path| && path[i] == ':'
    requires end == WildEnd(path, i) && NoWild(path[i + 1..end]) && end - i >= 2
    ensures var parent := t.(path := if i > 0 then path[..i] else t.path, wildChild := true);
            var blank := Trie("", false, StaticNode, numParams - 1, "", [], None, 1);
            InsertChild(t, numParams, path, h) ==
              if end < |path| then
                (match InsertChild(blank, numParams - 1, path[end..], h)
                 case None => None
                 case Some(rest) =>
                   Some(parent.(children := [Trie(path[i..end], false, ParamNode, numParams, "", [rest], None, 1)])))
              else if numParams > 1 then None
              else Some(parent.(children := [Trie(path[i..end], false, ParamNode, numParams, "", [], Some(h), 1)]))
  {
  }

  class Node {
    var path: string
    var wildChild: bool
    var nType: NodeType
    var maxParams: Uint8
    var indices: string
    var children: seq<Node>
    var handlers: Option<Handlers>
    var priority: nat

    ghost var Repr: set<object>
    ghost var model: Trie

    /** The tree value read off the fields and the models of the children. */
    ghost function ReadOff(): Trie
      reads this, children
    {
      Trie(path, wildChild, nType, maxParams, indices,
           seq(|children|, i requires 0 <= i < |children| reads this, children => children[i].model),
           handlers, priority)
    }

    /** The children are valid trees inside `R` that share nothing with each other or with this node. */
    ghost predicate Family(cs: seq<Node>, R: set<object>)
      requires this in R
      reads R - {this}
      decreases R, 0
    {
      && (forall i :: 0 <= i < |cs| ==>
            cs[i] in R && cs[i] != this && cs[i].Repr <= R && this !in cs[i].Repr && cs[i].Valid())
      && (forall i, j :: 0 <= i < j < |cs| ==> cs[i].Repr !! cs[j].Repr)
    }

    ghost predicate Valid()
      reads this, Repr
      ensures Valid() ==> this in Repr
      decreases Repr, 1
    {
      this in Repr && Family(children, Repr) && model == ReadOff()
    }

    lemma ChildValid(k: nat)
      requires Valid() && k < |children|
      ensures children[k].Valid() && |model.children| == |children| && model.children[k] == children[k].model
    {
    }

    lemma MovedFamily(cs: seq<Node>, R: set<object>, pos: nat, newPos: nat)
      requires this in R && Family(cs, R) && newPos <= pos < |cs|
      ensures Family(MoveUp(cs, pos, newPos), R)
    {
      MoveUpAt(cs, pos, newPos);
      var ms := MoveUp(cs, pos, newPos);
      forall i, j | 0 <= i < j < |ms| ensures ms[i].Repr !! ms[j].Repr {
        assert Source(pos, newPos, i) != Source(pos, newPos, j);
      }
    }

    constructor Blank(nType: NodeType, wildChild: bool, maxParams: Uint8, priority: nat)
      ensures Valid() && fresh(Repr) && Repr == {this} && children == []
      ensures model == Trie("", wildChild, nType, maxParams, "", [], None, priority)
    {
      this.path, this.indices, this.children, this.handlers := "", "", [], None;
      this.nType, this.wildChild, this.maxParams, this.priority := nType, wildChild, maxParams, priority;
      Repr := {this};
      new;
      model := ReadOff();
    }

    // -------------------------------------------------------------- small field updates

    /** Counts one more route at this node. */
    method Touch()
      requires Valid()
      modifies this
      ensures Valid() && Repr == old(Repr) && children == old(children)
      ensures model == Enter(old(model))
    {
      priority := priority + 1;
      model := ReadOff();
    }

    method Raise(numParams: Uint8)
      requires Valid()
      modifies this
      ensures Valid() && Repr == old(Repr) && children == old(children)
      ensures model == RaiseMax(old(model), numParams)
    {
      if numParams > maxParams {
        maxParams := numParams;
        model := ReadOff();
      }
    }

    // -------------------------------------------------------------- incrementChildPrio

    /** Moves the child at `pos` in front of those of smaller priority; `ms` gives their models. */
    method ShiftForward(pos: nat, prio: nat, ghost ms: seq<Trie>) returns (newPos: nat)
      requires pos < |children| == |ms|
      requires forall k :: 0 <= k < pos ==> children[k].priority == ms[k].priority
      modifies `children
      ensures newPos == FrontPos(ms, pos, prio)
      ensures children == MoveUp(old(children), pos, newPos)
    {
      hide MoveUp;
      newPos := pos;
      MoveUpNowhere(children, pos);
      while newPos > 0 && children[newPos - 1].priority < prio
        invariant newPos <= pos && children == MoveUp(old(children), pos, newPos)
        invariant FrontPos(ms, newPos, prio) == FrontPos(ms, pos, prio)
        invariant newPos > 0 ==> children[newPos - 1] == old(children)[newPos - 1]
      {
        MoveUpStep(old(children), pos, newPos);
        if newPos > 1 { MoveUpStep(old(children), pos, newPos - 1); }
        var left := children[newPos - 1];
        children := children[newPos - 1 := children[newPos]][newPos := left];
        newPos := newPos - 1;
      }
    }

    method TouchChild(pos: nat) returns (ghost ms: seq<Trie>)
      requires Valid() && pos < |children|
      modifies children[pos]
      ensures unchanged(this) && this in Repr && Family(children, Repr)
      ensures |ms| == |children| == |model.children|
      ensures ms == model.children[pos := Enter(model.children[pos])]
      ensures forall k :: 0 <= k < |children| ==> children[k].model == ms[k] && children[k].priority == ms[k].priority
    {
      forall k | 0 <= k < |children|
        ensures children[k] in children[k].Repr && children[k].priority == model.children[k].priority
      {
        assert children[k].Valid();
      }
      children[pos].Touch();
      ms := model.children[pos := Enter(model.children[pos])];
    }

    /** The model agrees with the fields other than the children and their index bytes. */
    ghost predicate InStep()
      reads this
    {
      && model.path == path && model.wildChild == wildChild && model.nType == nType
      && model.maxParams == maxParams && model.handlers == handlers && model.priority == priority
    }

    /** Builds the new index string after the child at `pos` has moved to `newPos`. */
    method MoveIndex(pos: nat, newPos: nat, ghost cs: seq<Node>, ghost ms: seq<Trie>)
      requires this in Repr && InStep() && newPos <= pos < |indices| <= |cs| && |ms| == |cs|
      requires Family(cs, Repr) && children == MoveUp(cs, pos, newPos)
      requires forall k :: 0 <= k < |cs| ==> cs[k].model == ms[k]
      modifies `indices, `model
      ensures Valid()
      ensures model == old(model).(children := MoveUp(ms, pos, newPos), indices := MoveUp(old(indices), pos, newPos))
    {
      MovedFamily(cs, Repr, pos, newPos);
      hide Family;
      MoveUpAt(cs, pos, newPos);
      MoveUpAt(ms, pos, newPos);
      if newPos != pos {
        indices := indices[..newPos] + indices[pos..pos + 1] + indices[newPos..pos] + indices[pos + 1..];
      }
      assert indices == MoveUp(old(indices), pos, newPos);
      model := ReadOff();
      assert model.children == MoveUp(ms, pos, newPos);
    }

    method IncrementChildPrio(pos: nat) returns (newPos: nat)
      requires Valid() && pos < |indices| <= |children|
      modifies this, children[pos]
      ensures Valid() && Repr == old(Repr)
      ensures (model, newPos) == BumpChild(old(model), pos)
    {
      hide Family;
      ghost var ms := TouchChild(pos);
      ghost var cs := children;
      newPos := ShiftForward(pos, children[pos].priority, model.children);
      MoveIndex(pos, newPos, cs, ms);
    }

    // -------------------------------------------------------------- splitting an edge

    /** The largest maxParams among the children. */
    method LargestBelow() returns (m: Uint8)
      requires Valid()
      ensures m == MaxOfMaxParams(model.children)
    {
      ghost var ms := model.children;
      m := 0;
      for i := 0 to |children|
        invariant |ms| == |children| && m == MaxOfMaxParams(ms[..i])
      {
        assert children[i].Valid() && ms[i] == children[i].model;
        MaxConcat(ms[..i], [ms[i]]);
        MaxSingle(ms[i]);
        assert ms[..i + 1] == ms[..i] + [ms[i]];
        if children[i].maxParams > m {
          m := children[i].maxParams;
        }
      }
      assert ms[..|ms|] == ms;
    }

    /** Splits the edge into this node after `i` bytes. */
    method Split(i: nat)
      requires Valid() && i < |path| && priority > 0
      modifies this
      ensures Valid() && fresh(Repr - old(Repr))
      ensures model == SplitEdge(old(model), i)
    {
      var child := new Node.Copy(this, i);
      children := [child];
      indices := [path[i]];
      path := path[..i];
      handlers := None;
      wildChild := false;
      Repr := Repr + {child};
      model := ReadOff();
    }

    /** The lower half of a split node: it takes over everything but the first `i` bytes of the path. */
    constructor Copy(n: Node, i: nat)
      requires n.Valid() && i < |n.path| && n.priority > 0
      ensures Valid() && Repr == n.Repr - {n} + {this} && fresh(this)
      ensures model == SplitEdge(n.model, i).children[0]
    {
      path := n.path[i..];
      wildChild := n.wildChild;
      nType := StaticNode;
      indices := n.indices;
      children := n.children;
      handlers := n.handlers;
      priority := n.priority - 1;
      maxParams := 0;
      Repr := n.Repr - {n} + {this};
      new;
      var m := n.LargestBelow();
      maxParams := m;
      model := ReadOff();
      assert model.children == n.model.children;
    }

    // -------------------------------------------------------------- going down

    /** Takes over the new model of the child at `pos` after the walk has changed that child. */
    ghost method Adopt(pos: nat, before: seq<Trie>)
      requires pos < |children| == |before| && this in Repr && InStep() && model.indices == indices
      requires forall i :: 0 <= i < |children| ==>
                 children[i] != this && this !in children[i].Repr && children[i].Valid()
      requires forall i, j :: 0 <= i < j < |children| ==> children[i].Repr !! children[j].Repr
      requires forall i :: 0 <= i < |children| && i != pos ==>
               children[i].Repr <= Repr && children[i].model == before[i]
      modifies `model, `Repr
      ensures Valid() && Repr == old(Repr) + children[pos].Repr
      ensures model == old(model).(children := before[pos := children[pos].model])
    {
      Repr := Repr + children[pos].Repr;
      assert forall i :: 0 <= i < |children| ==> children[i] in children[i].Repr;
      model := ReadOff();
      assert model.children == before[pos := children[pos].model];
    }

    // -------------------------------------------------------------- insertChild

    method InsertBelow(numParams: Uint8, path: string, h: Handlers) returns (ok: bool)
      requires Valid()
      modifies this
      ensures ok <==> InsertChild(old(model), numParams, path, h).Some?
      ensures ok ==> Valid() && fresh(Repr - old(Repr)) && model == InsertChild(old(model), numParams, path, h).value
      decreases |path|, 2
    {
      if numParams == 0 {
        this.path := path;
        handlers := Some(h);
        model := ReadOff();
        return true;
      }
      var i := FindWildcard(path);
      if i == |path| {
        return false;
      }
      var end, clean := FindWildEnd(path, i);
      if !clean || |children| > 0 || end - i < 2 {
        return false;
      }
      if path[i] == ':' {
        ok := InsertParam(numParams, path, h, i, end);
      } else {
        ok := InsertCatchAll(numParams, path, h, i, end);
      }
    }

    method InsertCatchAll(numParams: Uint8, path: string, h: Handlers, i: nat, end: nat) returns (ok: bool)
      requires Valid() && numParams > 0 && children == []
      requires i == FirstWild(path) && i < |path| && path[i] != ':'
      requires end == WildEnd(path, i) && NoWild(path[i + 1..end]) && end - i >= 2
      modifies this
      ensures ok <==> InsertChild(old(model), numParams, path, h).Some?
      ensures ok ==> Valid() && fresh(Repr - old(Repr)) && model == InsertChild(old(model), numParams, path, h).value
    {
      hide InsertChild;
      CatchAllCase(model, numParams, path, h, i, end);
      if end != |path| || numParams > 1
         || (|this.path| > 0 && this.path[|this.path| - 1] == '/')
         || i == 0 || path[i - 1] != '/' {
        return false;
      }
      this.path := path[..i - 1];
      var head := NewCatchAll(path[i - 1..], h);
      children := [head];
      indices := [path[i - 1]];
      AdoptOnly(head);
      ok := true;
    }

    /** The two nodes of a catch-all: one with an empty path, and below it the one that holds the variable. */
    static method NewCatchAll(name: string, h: Handlers) returns (head: Node)
      ensures head.Valid() && fresh(head.Repr)
      ensures head.model == Trie("", true, CatchAllNode, 1, "",
                                 [Trie(name, false, CatchAllNode, 1, "", [], Some(h), 1)], None, 1)
    {
      head := new Node.Blank(CatchAllNode, true, 1, 0);
      head.Touch();
      var leaf := new Node.Blank(CatchAllNode, false, 1, 1);
      leaf.SetLeaf(name, h);
      head.SetOnlyChild(leaf);
    }

    method SetLeaf(path: string, h: Handlers)
      requires Valid()
      modifies this
      ensures Valid() && Repr == old(Repr) && children == old(children)
      ensures model == old(model).(path := path, handlers := Some(h))
    {
      this.path := path;
      handlers := Some(h);
      model := ReadOff();
    }

    method SetOnlyChild(child: Node)
      requires Valid() && child.Valid() && this !in child.Repr && children == []
      modifies this
      ensures Valid() && Repr == old(Repr) + child.Repr
      ensures model == old(model).(children := [child.model])
    {
      children := [child];
      Repr := Repr + child.Repr;
      model := ReadOff();
    }

    /** The ghost half of linking an only child that has been completed. */
    ghost method AdoptOnly(child: Node)
      requires children == [child] && this in Repr && child.Valid() && this !in child.Repr
      modifies `model, `Repr
      ensures Valid() && Repr == old(Repr) + child.Repr
      ensures model == Trie(path, wildChild, nType, maxParams, indices, [child.model], handlers, priority)
    {
      assert child in child.Repr;
      Repr := Repr + child.Repr;
      model := ReadOff();
    }

    method InsertParam(numParams: Uint8, path: string, h: Handlers, i: nat, end: nat) returns (ok: bool)
      requires Valid() && numParams > 0 && children == []
      requires i == FirstWild(path) && i < |path| && path[i] == ':'
      requires end == WildEnd(path, i) && NoWild(path[i + 1..end]) && end - i >= 2
      modifies this
      ensures ok <==> InsertChild(old(model), numParams, path, h).Some?
      ensures ok ==> Valid() && fresh(Repr - old(Repr)) && model == InsertChild(old(model), numParams, path, h).value
      decreases |path|, 1
    {
      hide InsertChild;
      ParamCase(model, numParams, path, h, i, end);
      if i > 0 {
        this.path := path[..i];
      }
      wildChild := true;
      var child;
      ok, child := NewParam(numParams, path, h, i, end);
      if ok {
        children := [child];
        AdoptOnly(child);
      }
    }

    /** The node of a parameter with everything that follows it. */
    static method NewParam(numParams: Uint8, path: string, h: Handlers, i: nat, end: nat)
        returns (ok: bool, child: Node)
      requires numParams > 0 && i < end <= |path|
      ensures child.Valid() && fresh(child.Repr)
      ensures var blank := Trie("", false, StaticNode, numParams - 1, "", [], None, 1);
              var name := path[i..end];
              if end < |path| then
                var below := InsertChild(blank, numParams - 1, path[end..], h);
                && (ok <==> below.Some?)
                && (ok ==> child.model == Trie(name, false, ParamNode, numParams, "", [below.value], None, 1))
              else
                && (ok <==> numParams <= 1)
                && (ok ==> child.model == Trie(name, false, ParamNode, numParams, "", [], Some(h), 1))
      decreases |path|, 0
    {
      hide InsertChild;
      child := new Node.Blank(ParamNode, false, numParams, 0);
      child.Touch();
      if end < |path| {
        child.SetPath(path[i..end]);
        ok := child.HangRest(numParams - 1, path[end..], h);
      } else {
        ok := numParams <= 1;
        if ok {
          child.SetLeaf(path[i..end], h);
        }
      }
    }

    /** Hangs what follows a parameter below its node. */
    method HangRest(numParams: Uint8, path: string, h: Handlers) returns (ok: bool)
      requires Valid() && children == []
      modifies this
      ensures Valid() && fresh(Repr - old(Repr))
      ensures var blank := Trie("", false, StaticNode, numParams, "", [], None, 1);
              var below := InsertChild(blank, numParams, path, h);
              && (ok <==> below.Some?)
              && (ok ==> model == old(model).(children := [below.value]))
      decreases |path|, 3
    {
      hide InsertChild, Family;
      var rest := new Node.Blank(StaticNode, false, numParams, 1);
      ok := rest.InsertBelow(numParams, path, h);
      if ok {
        SetOnlyChild(rest);
      }
    }

    method SetPath(path: string)
      requires Valid()
      modifies this
      ensures Valid() && Repr == old(Repr) && children == old(children)
      ensures model == old(model).(path := path)
    {
      this.path := path;
      model := ReadOff();
    }

    // -------------------------------------------------------------- the walk of addRoute

    /** Everything the walk may assume of this node while one child is under change. */
    ghost predicate Between(before: seq<Trie>)
      reads this, Repr
    {
      && this in Repr && InStep() && model.indices == indices
      && |before| == |children| && Family(children, Repr)
      && forall i :: 0 <= i < |children| ==> children[i].model == before[i]
    }

    lemma ValidIsBetween()
      requires Valid()
      ensures Between(model.children) && |model.children| == |children|
    {
    }

    method RaiseChild(pos: nat, numParams: Uint8, ghost before: seq<Trie>) returns (ghost ms: seq<Trie>)
      requires Between(before) && pos < |children|
      modifies children[pos]
      ensures unchanged(this) && ms == before[pos := RaiseMax(before[pos], numParams)] && Between(ms)
    {
      assert forall k :: 0 <= k < |children| ==> children[k] in children[k].Repr;
      children[pos].Raise(numParams);
      ms := before[pos := RaiseMax(before[pos], numParams)];
    }

    /** Walks on at the child, which has just been entered. */
    method Descend(pos: nat, rest: string, numParams: Uint8, h: Handlers, ghost before: seq<Trie>, ghost height: nat)
      returns (ok: bool)
      requires pos < |children| && Between(before)
      requires Shape(before[pos]) && before[pos].priority > 0 && Enterable(before[pos], rest) &&
               Height(before[pos]) < height
      modifies Repr
      ensures var r := RouteTrie.Walk(before[pos], rest, numParams, h);
              && (ok <==> r.Some?)
              && (ok ==> Valid() && fresh(Repr - old(Repr)) && model == old(model).(children := before[pos := r.value]))
      decreases height, 0
    {
      hide Shape, Enterable, RouteTrie.Walk;
      ok := children[pos].Walk(rest, numParams, h);
      if ok {
        Adopt(pos, before);
      }
    }

    /** The wildcard child takes the rest if it has the same name and ends there or at a '/'. */
    method WalkWild(rest: string, numParams: Uint8, h: Handlers, ghost height: nat) returns (ok: bool)
      requires Valid() && rest != "" && wildChild && |children| == 1
      requires DownIsGood(NextWild(model, rest, numParams), height)
      modifies Repr
      ensures var r := Finish(NextWild(old(model), rest, numParams), numParams, h, height);
              && (ok <==> r.Some?)
              && (ok ==> Valid() && fresh(Repr - old(Repr)) && model == r.value)
      decreases height, 1
    {
      hide Shape, RouteTrie.Walk;
      ghost var ms := TouchChild(0);
      ms := RaiseChild(0, numParams, ms);
      var w := children[0];
      assert w.Valid();
      if |rest| >= |w.path| && w.path == rest[..|w.path|] {
        if |w.path| >= |rest| || rest[|w.path|] == '/' {
          assert ms == [RaiseMax(Enter(old(model).children[0]), numParams)];
          ok := Descend(0, rest, if numParams == 0 then 255 else numParams - 1, h, ms, height);
          return;
        }
      }
      ok := false;
    }

    /** The slash after a parameter. */
    method WalkSlash(rest: string, numParams: Uint8, h: Handlers, ghost height: nat) returns (ok: bool)
      requires Valid() && rest != "" && |children| == 1
      requires DownIsGood(Down(model.(children := [Enter(model.children[0])]), 0, rest, numParams), height)
      modifies Repr
      ensures var r := Finish(Down(old(model).(children := [Enter(old(model).children[0])]), 0, rest, numParams),
                              numParams, h, height);
              && (ok <==> r.Some?)
              && (ok ==> Valid() && fresh(Repr - old(Repr)) && model == r.value)
      decreases height, 1
    {
      hide Shape, RouteTrie.Walk;
      ghost var ms := TouchChild(0);
      assert ms == [Enter(old(model).children[0])];
      ok := Descend(0, rest, numParams, h, ms, height);
    }

    /** Appends a blank child under index byte `c` and moves it into place. */
    method Append(c: char, numParams: Uint8) returns (pos: nat)
      requires Valid() && |indices| == |children|
      modifies Repr
      ensures Valid() && fresh(Repr - old(Repr))
      ensures (model, pos) == AppendChild(old(model), c, numParams)
    {
      indices := indices + [c];
      var child := new Node.Blank(StaticNode, false, numParams, 0);
      children := children + [child];
      Repr := Repr + {child};
      model := ReadOff();
      assert model.children == old(model).children + [child.model];
      pos := IncrementChildPrio(|indices| - 1);
    }

    /** Hangs the rest of the pattern below the child at `pos`. */
    method HangAt(pos: nat, numParams: Uint8, rest: string, h: Handlers) returns (ok: bool)
      requires Valid() && pos < |children|
      modifies Repr
      ensures pos < |old(model).children|
      ensures var r := InsertChild(old(model).children[pos], numParams, rest, h);
              && (ok <==> r.Some?)
              && (ok ==> Valid() && fresh(Repr - old(Repr)))
              && (ok ==> model == old(model).(children := old(model).children[pos := r.value]))
    {
      hide InsertChild;
      ghost var ms := model.children;
      ValidIsBetween();
      assert children[pos] in children[pos].Repr;
      ok := children[pos].InsertBelow(numParams, rest, h);
      if ok {
        Adopt(pos, ms);
      }
    }

    method WalkStatic(rest: string, numParams: Uint8, h: Handlers, ghost height: nat) returns (ok: bool)
      requires Valid() && rest != "" && |indices| <= |children|
      requires |indices| < |children| ==> IndexOf(indices, rest[0]) < |indices|
      requires DownIsGood(NextStatic(model, rest, numParams), height)
      modifies Repr
      ensures var r := Finish(NextStatic(old(model), rest, numParams), numParams, h, height);
              && (ok <==> r.Some?)
              && (ok ==> Valid() && fresh(Repr - old(Repr)) && model == r.value)
      decreases height, 1
    {
      hide Shape, RouteTrie.Walk, InsertChild;
      var c := rest[0];
      var k := FindIndex(indices, c);
      if k < |indices| {
        var pos := IncrementChildPrio(k);
        ValidIsBetween();
        ok := Descend(pos, rest, numParams, h, model.children, height);
      } else if c != ':' && c != '*' {
        var pos := Append(c, numParams);
        ok := HangAt(pos, numParams, rest, h);
      } else {
        ok := InsertBelow(numParams, rest, h);
      }
    }

    method WalkOn(rest: string, numParams: Uint8, h: Handlers, ghost height: nat) returns (ok: bool)
      requires Valid() && rest != "" && LocalShape(model) && Walkable(model)
      requires HoldsWildcard(model) ==> rest[0] == '/'
      requires DownIsGood(NextAt(model, rest, numParams), height)
      modifies Repr
      ensures var r := Finish(NextAt(old(model), rest, numParams), numParams, h, height);
              && (ok <==> r.Some?)
              && (ok ==> Valid() && fresh(Repr - old(Repr)) && model == r.value)
      decreases height, 2
    {
      hide Shape, RouteTrie.Walk, InsertChild, NextWild, NextStatic;
      if wildChild {
        ok := WalkWild(rest, numParams, h, height);
      } else if nType.ParamNode? && rest[0] == '/' && |children| == 1 {
        ok := WalkSlash(rest, numParams, h, height);
      } else {
        IndicesMatch(model, rest);
        ok := WalkStatic(rest, numParams, h, height);
      }
    }

    /** The walk loop of addRoute, from this node on; the node has already been counted. */
    method Walk(path: string, numParams: Uint8, h: Handlers) returns (ok: bool)
      requires Valid() && Shape(model) && model.priority > 0 && Enterable(model, path)
      modifies Repr
      ensures var r := RouteTrie.Walk(old(model), path, numParams, h);
              && (ok <==> r.Some?)
              && (ok ==> Valid() && fresh(Repr - old(Repr)) && model == r.value)
      decreases Height(model), 3
    {
      ghost var height := Height(model);
      WalkTurn(model, path, numParams, h);
      hide RouteTrie.Walk, Shape, LocalShape, InsertChild, NextAt, DownIsGood, Enterable, Finish;
      var i := PassPath(path, numParams);
      if i == |path| {
        ok := handlers.None?;
        if ok {
          handlers := Some(h);
          model := ReadOff();
        }
      } else {
        ok := WalkOn(path[i..], numParams, h, height);
      }
    }

    /** Raises maxParams and splits this node's edge where the path parts from it, `i` bytes on. */
    method PassPath(path: string, numParams: Uint8) returns (i: nat)
      requires Valid() && priority > 0
      modifies this
      ensures Valid() && fresh(Repr - old(Repr))
      ensures model == SplitAt(RaiseMax(old(model), numParams), path) && i == CommonPrefix(path, old(model).path)
    {
      Raise(numParams);
      i := FindCommonPrefix(path, this.path);
      if i < |this.path| {
        Split(i);
      }
    }

    /** addRoute on the root of a tree. */
    method AddRoute(path: string, h: Handlers) returns (ok: bool)
      requires Valid() && path != "" && path[0] == '/' && (model == EmptyTrie || RootShape(model))
      modifies Repr
      ensures var r := RouteTrie.AddRoute(old(model), path, h);
              && (ok <==> r.Some?)
              && (ok ==> Valid() && fresh(Repr - old(Repr)) && model == r.value)
    {
      EnterRoot(model);
      hide RouteTrie.Walk, InsertChild;
      Touch();
      var numParams := CountWildcards(path);
      if |this.path| > 0 || |children| > 0 {
        ok := Walk(path, numParams, h);
      } else {
        ok := InsertBelow(numParams, path, h);
      }
    }

    // -------------------------------------------------------------- getValue

    /**
     Saves one parameter as the source does: a slice of too small a capacity is replaced by
     an empty one, and the slice is then extended within its capacity.
     */
    static method Save(p: seq<Param>, capacity: nat, maxParams: Uint8, param: Param) returns (q: seq<Param>, room: nat)
      requires p == [] || maxParams <= capacity
      requires |p| + 1 <= Max(capacity, maxParams)
      ensures q == p + [param] && room == Max(capacity, maxParams) && |q| <= room
    {
      q, room := p, capacity;
      if capacity < maxParams {
        q, room := [], maxParams;
      }
      q := q + [param];
    }

    /** Room is left for every parameter that may still be saved below `t`. */
    static ghost predicate RoomBelow(t: Trie, p: seq<Param>, capacity: nat) {
      ChildMaxParamsOk(t.children) && (p == [] || |p| + MaxOfMaxParams(t.children) <= capacity)
    }

    static lemma RoomAtChild(t: Trie, k: nat, p: seq<Param>, capacity: nat)
      requires k < |t.children| && RoomBelow(t, p, capacity)
      ensures var c := t.children[k];
              && MaxParamsOk(c) && ChildMaxParamsOk(c.children)
              && (p == [] || |p| + c.maxParams <= capacity)
              && (!HoldsWildcard(c) ==> RoomBelow(c, p, capacity))
    {
      MaxAtLeast(t.children, k);
    }

    /** After the parameter of wildcard node `w` is saved, there is room below the node that follows it. */
    static lemma RoomAfterSave(w: Trie, p: seq<Param>, capacity: nat, q: seq<Param>, room: nat)
      requires MaxParamsOk(w) && HoldsWildcard(w) && |w.children| > 0 && !HoldsWildcard(w.children[0])
      requires p == [] || |p| + w.maxParams <= capacity
      requires |q| == |p| + 1 && room == Max(capacity, w.maxParams)
      ensures RoomBelow(w.children[0], q, room)
    {
      MaxAtLeast(w.children, 0);
      assert MaxParamsOk(w.children[0]);
    }

    /** What holds at a node where the lookup stands. */
    ghost predicate Standing(p: seq<Param>, room: nat)
      reads this, Repr
    {
      Valid() && Shape(model) && Stops(model) && RoomBelow(model, p, room)
    }

    /** One step of getValue below a wildcard: the parameter is saved and the lookup ends, or goes on at `next`. */
    method PassWildcard(rest: string, p: seq<Param>, capacity: nat)
      returns (next: Node?, rest': string, found: Option<Handlers>, q: seq<Param>, room: nat)
      requires Standing(p, capacity) && wildChild && rest != ""
      ensures next == null ==>
                Lookup(model, path + rest, p) == (if found.Some? then Some((found.value, q)) else None)
      ensures next != null ==>
                && next.Standing(q, room) && next.model < model
                && Lookup(model, path + rest, p) == Lookup(next.model, rest', q)
    {
      next, rest', found, room := null, rest, None, capacity;
      var w := children[0];
      ChildValid(0);
      assert Shape(w.model) && (path + rest)[|path|..] == rest;
      RoomAtChild(model, 0, p, capacity);
      if w.nType.ParamNode? {
        var end := FindSegmentEnd(rest);
        q, room := Save(p, capacity, w.maxParams, Param(w.path[1..], rest[..end]));
        if end == |rest| {
          found := w.handlers;
        } else if |w.children| > 0 {
          w.ChildValid(0);
          assert Indexed(w.model.children[0], '/');
          RoomAfterSave(w.model, p, capacity, q, room);
          next, rest' := w.children[0], rest[end..];
        }
      } else {
        q, room := Save(p, capacity, w.maxParams, Param(w.path[2..], rest));
        found := w.handlers;
      }
    }

    /** The handlers for a path with the saved parameters; `capacity` is that of the empty slice passed in. */
    method GetValue(path: string, capacity: nat) returns (found: Option<Handlers>, params: seq<Param>)
      requires Valid() && Shape(model) && Stops(model) && ChildMaxParamsOk(model.children)
      ensures Lookup(model, path, []) == (if found.Some? then Some((found.value, params)) else None)
    {
      hide MaxParamsOk, MaxOfMaxParams;
      var n: Node := this;
      var rest, room := path, capacity;
      params := [];
      while true
        invariant n.Standing(params, room)
        invariant Lookup(model, path, []) == Lookup(n.model, rest, params)
        decreases n.model
      {
        if |rest| <= |n.path| {
          if rest == n.path {
            return n.handlers, params;
          }
          return None, params;
        }
        if rest[..|n.path|] != n.path {
          return None, params;
        }
        assert rest == n.path + rest[|n.path|..];
        rest := rest[|n.path|..];
        if !n.wildChild {
          var k := FindIndex(n.indices, rest[0]);
          if k == |n.indices| {
            return None, params;
          }
          RoomAtChild(n.model, k, params, room);
          IndexedChild(n.model, k);
          n.ChildValid(k);
          n := n.children[k];
        } else {
          var next;
          next, rest, found, params, room := n.PassWildcard(rest, params, room);
          if next == null {
            return;
          }
          n := next;
        }
      }
    }

    // -------------------------------------------------------------- findCaseInsensitivePath

    /** One step below a wildcard: its value is copied, and the walk ends or goes on at `next`. */
    method CopyWildcard(path0: string) returns (next: Node?, rest': string, piece: string, found: bool)
      requires Valid() && Shape(model) && wildChild && FoldPrefix(path, path0) && |path0| > |path|
      ensures next == null ==> FindFold(model, path0) == (if found then Some(path + piece) else None)
      ensures next != null ==>
                && next.Valid() && Shape(next.model) && next.model < model
                && FindFold(model, path0) == Prepend(path + piece, FindFold(next.model, rest'))
    {
      hide EqualFold, FoldPrefix;
      var rest := path0[|path|..];
      var w := children[0];
      ChildValid(0);
      assert Shape(w.model);
      next, rest', piece, found := null, rest, rest, true;
      if w.nType.ParamNode? {
        var k := FindSegmentEnd(rest);
        piece := rest[..k];
        if k == |rest| {
          assert piece == rest;
          found := w.handlers.Some?;
        } else if |w.children| == 0 {
          found := false;
        } else {
          w.ChildValid(0);
          next, rest' := w.children[0], rest[k..];
        }
      }
    }

    /** The walk of findCaseInsensitivePath, without trailing-slash fixing. */
    method FindCaseInsensitivePath(path: string) returns (ciPath: string, found: bool)
      requires Valid() && Shape(model)
      ensures FindFold(model, path) == (if found then Some(ciPath) else None)
      decreases model, 1
    {
      hide EqualFold;
      var n: Node := this;
      var rest := path;
      ciPath := "";
      PrependNothing(FindFold(model, path));
      while FoldPrefix(n.path, rest)
        invariant n.Valid() && Shape(n.model) && (n == this || n.model < model)
        invariant FindFold(model, path) == Prepend(ciPath, FindFold(n.model, rest))
        decreases n.model
      {
        if |rest| == |n.path| {
          return ciPath + n.path, n.handlers.Some?;
        }
        if !n.wildChild {
          var out;
          IndicesFit(n.model);
          PrependTwice(ciPath, n.path, FindAmong(n.model, 0, rest[|n.path|..]));
          out, found := n.FindBelow(rest[|n.path|..]);
          return ciPath + n.path + out, found;
        }
        var next, rest', piece;
        next, rest', piece, found := n.CopyWildcard(rest);
        var ci := ciPath + (n.path + piece);
        if next == null {
          return ci, found;
        }
        PrependTwice(ciPath, n.path + piece, FindFold(next.model, rest'));
        ciPath := ci;
        n, rest := next, rest';
      }
      found := false;
    }

    /** Tries every child whose index byte agrees up to case; both cases of a byte may branch here. */
    method FindBelow(rest: string) returns (out: string, found: bool)
      requires Valid() && Shape(model) && !wildChild && rest != "" && |indices| <= |children|
      ensures FindAmong(model, 0, rest) == (if found then Some(out) else None)
      decreases model, 0
    {
      hide FindFold;
      for i := 0 to |indices|
        invariant FindAmong(model, 0, rest) == FindAmong(model, i, rest)
      {
        if Lower(rest[0]) == Lower(indices[i]) {
          ChildValid(i);
          assert Shape(model.children[i]);
          out, found := children[i].FindCaseInsensitivePath(rest);
          if found {
            return;
          }
        }
      }
      return "", false;
    }
  }

  lemma PrependNothing(r: Option<string>)
    ensures Prepend("", r) == r
  {
    if r.Some? { assert "" + r.value == r.value; }
  }

  lemma EnterRoot(t: Trie)
    requires t == EmptyTrie || RootShape(t)
    ensures RootShape(t) ==> RootShape(Enter(t)) && (t.path != "" || |t.children| > 0)
  {
    if RootShape(t) { EnterKeepsShape(t, 0); }
  }
}
