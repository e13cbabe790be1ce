/**
 Exactly which registrations are accepted, told on patterns alone: a new pattern is compared with each registered one
 up to the point where the two part.
 */
module RouterConflicts {
  import opened Common
  import opened RoutePattern
  import opened RouteTrie
  import opened RouteTrieShape
  import opened RouteTrieRoutes
  import opened Router

  // ---------------------------------------------------------------- patterns

  /**
   Every wildcard has a name of its own; a catch-all stands behind a '/' and ends the pattern.  A name ends before the
   next '/' and holds no other wildcard.
   */
  predicate WellFormed(s: string)
    decreases |s|, 1
  {
    var i := FirstWild(s);
    i == |s| || WildFits(s, i, WildEnd(s, i))
  }

  /** The wildcard between `i` and `end`, and what follows it. */
  predicate WildFits(s: string, i: nat, end: nat)
    requires i < end <= |s|
    decreases |s|, 0
  {
    && NoWild(s[i + 1..end]) && end - i >= 2
    && (if s[i] == ':' then end == |s| || WellFormed(s[end..]) else end == |s| && i > 0 && s[i - 1] == '/')
  }

  predicate StartsCatchAll(s: string) {
    |s| >= 2 && s[0] == '/' && s[1] == '*'
  }

  /** The end of the parameter or catch-all segment at the beginning. */
  function SegmentLength(s: string): nat
    requires s != "" && (s[0] == ':' || StartsCatchAll(s))
  {
    if s[0] == ':' then 1 + SegmentEnd(s[1..]) else 2 + SegmentEnd(s[2..])
  }

  /** `p` begins with the first `e` bytes of `q` as a whole segment. */
  predicate SameSegment(p: string, q: string, e: nat)
    requires e <= |q|
  {
    e <= |p| && p[..e] == q[..e] && (e == |p| || p[e] == '/')
  }

  /**
   What a new pattern does to a registered one: repeats it, conflicts with it, or parts from it with `rest` to come.
   */
  datatype Meeting = Repeats | Conflicts | Parts(rest: string)

  /** A wildcard stands alone: where one pattern has it, the other must have the same or have ended. */
  function Meet(p: string, q: string): Meeting
    decreases |p|
  {
    if p == "" then
      if q == "" then Repeats else Parts("")
    else if q == "" then
      Parts(p)
    else if q[0] == ':' || (StartsCatchAll(q) && p[0] == '/') then
      var e := SegmentLength(q);
      if SameSegment(p, q, e) then Meet(p[e..], q[e..]) else Conflicts
    else if p[0] == ':' || (StartsCatchAll(p) && q[0] == '/') then
      Conflicts
    else if p[0] == q[0] then
      Meet(p[1..], q[1..])
    else
      Parts(p)
  }

  /** The patterns part, and what is left is well-formed. */
  predicate Fit(p: string, q: string) {
    Meet(p, q).Parts? && WellFormed(Meet(p, q).rest)
  }

  /** Past a shared literal prefix only the rests count. */
  lemma {:induction false} MeetLiteral(u: string, rest: string, s: string)
    requires NoWild(u) && (s != "" ==> s[0] != '*')
    ensures if rest != "" && rest[0] == '*' && u != "" && u[|u| - 1] == '/' then Meet(u + rest, u + s) == Conflicts
            else Meet(u + rest, u + s) == Meet(rest, s)
    decreases |u|
  {
    if u == "" {
      assert u + rest == rest && u + s == s;
    } else {
      var p, q := u + rest, u + s;
      assert p[0] == q[0] == u[0] && p[1..] == u[1..] + rest && q[1..] == u[1..] + s;
      assert |u| > 1 ==> p[1] == q[1] == u[1];
      MeetLiteral(u[1..], rest, s);
    }
  }

  /** Past a shared wildcard, too. */
  lemma MeetWildcard(w: string, rest: string, s: string)
    requires w != "" && (w[0] == ':' || StartsCatchAll(w)) && '/' !in w[1..]
    requires (rest == "" || rest[0] == '/') && (s == "" || s[0] == '/')
    ensures Meet(w + rest, w + s) == Meet(rest, s)
  {
    var p, q := w + rest, w + s;
    WildcardLength(w, s);
    assert p[..|w|] == w == q[..|w|] && p[|w|..] == rest && q[|w|..] == s;
    assert p[0] == w[0] == q[0];
  }

  lemma WildcardLength(w: string, s: string)
    requires w != "" && (w[0] == ':' || StartsCatchAll(w)) && '/' !in w[1..] && (s == "" || s[0] == '/')
    ensures (w + s)[0] == w[0] && (StartsCatchAll(w) ==> StartsCatchAll(w + s)) && SegmentLength(w + s) == |w|
  {
    if w[0] == ':' {
      assert (w + s)[1..] == w[1..] + s;
      SegmentEndConcat(w[1..], s);
    } else {
      assert (w + s)[2..] == w[2..] + s;
      assert forall c :: c in w[2..] ==> c in w[1..];
      SegmentEndConcat(w[2..], s);
    }
  }

  /** Whoever does not share the wildcard conflicts with it. */
  lemma MeetOtherWildcard(w: string, p: string, s: string)
    requires w != "" && (w[0] == ':' || StartsCatchAll(w)) && '/' !in w[1..]
    requires (s == "" || s[0] == '/') && p != "" && (StartsCatchAll(w) ==> p[0] == '/')
    requires !(w <= p && (|w| == |p| || p[|w|] == '/'))
    ensures Meet(p, w + s) == Conflicts
  {
    WildcardLength(w, s);
    assert (w + s)[..|w|] == w;
  }

  /** Patterns that go on with different literal bytes part there. */
  lemma MeetApart(p: string, q: string)
    requires p != "" && (q == "" || (p[0] != q[0] && !IsWild(q[0]) && p[0] != ':'))
    ensures Meet(p, q) == Parts(p)
  {
  }

  /** A parameter conflicts with what is stored beside it. */
  lemma MeetBesideParam(p: string, q: string)
    requires p != "" && p[0] == ':' && q != "" && !IsWild(q[0])
    ensures Meet(p, q) == Conflicts
  {
  }

  /** What is left of a well-formed pattern is well-formed. */
  lemma {:induction false} RestIsWellFormed(p: string, q: string)
    requires WellFormed(p) && Meet(p, q).Parts?
    ensures WellFormed(Meet(p, q).rest)
    decreases |p|
  {
    if p == "" || q == "" {
    } else if q[0] == ':' || (StartsCatchAll(q) && p[0] == '/') {
      var e := SegmentLength(q);
      BehindSegment(p, q, e);
      RestIsWellFormed(p[e..], q[e..]);
    } else if p[0] == q[0] {
      BehindLiteral(p);
      RestIsWellFormed(p[1..], q[1..]);
    }
  }

  lemma BehindLiteral(p: string)
    requires WellFormed(p) && p != "" && p[0] != ':' && !StartsCatchAll(p)
    ensures WellFormed(p[1..])
  {
    hide FirstWild, WildEnd, WildFits;
    FirstWildShift(p);
    var i := FirstWild(p);
    if i == 0 {
      WildStar(p, WildEnd(p, 0));
    } else if i < |p| {
      WildEndShift(p, i);
      WildFitsShift(p, i, WildEnd(p, i));
    }
  }

  lemma WildStar(p: string, end: nat)
    requires 0 < end <= |p| && WildFits(p, 0, end)
    ensures p[0] == ':'
  {
  }

  lemma WildFitsShift(p: string, i: nat, end: nat)
    requires 0 < i < end <= |p| && WildFits(p, i, end) && IsWild(p[i]) && !StartsCatchAll(p)
    ensures WildFits(p[1..], i - 1, end - 1)
  {
    hide WellFormed;
    assert p[1..][i..end - 1] == p[i + 1..end] && p[1..][end - 1..] == p[end..] && p[1..][i - 1] == p[i];
    if p[i] == '*' { assert i > 1 ==> p[1..][i - 2] == p[i - 1]; }
  }

  lemma FirstWildShift(p: string)
    requires p != ""
    ensures FirstWild(p) == if IsWild(p[0]) then 0 else 1 + FirstWild(p[1..])
  {
  }

  lemma WildEndShift(p: string, i: nat)
    requires 0 < i < |p|
    ensures WildEnd(p[1..], i - 1) == WildEnd(p, i) - 1
  {
    assert p[1..][i..] == p[i + 1..];
  }

  lemma BehindSegment(p: string, q: string, e: nat)
    requires WellFormed(p) && p != "" && q != "" && (q[0] == ':' || (StartsCatchAll(q) && p[0] == '/'))
    requires e == SegmentLength(q) <= |q| && SameSegment(p, q, e)
    ensures WellFormed(p[e..])
  {
    assert p[0] == p[..e][0] == q[..e][0] == q[0];
    if q[0] == ':' {
      SegmentsEqual(p, q, 1, e);
      assert FirstWild(p) == 0 && WildEnd(p, 0) == e;
    } else {
      assert p[1] == p[..e][1] == q[..e][1] == '*';
      SegmentsEqual(p, q, 2, e);
      assert FirstWild(p[1..]) == 0;
      assert FirstWild(p) == 1 && WildEnd(p, 1) == e;
    }
  }

  /** A whole segment ends where its copy ends. */
  lemma SegmentsEqual(p: string, q: string, k: nat, e: nat)
    requires k <= e <= |q| && e == k + SegmentEnd(q[k..]) && SameSegment(p, q, e)
    ensures SegmentEnd(p[k..]) == e - k
  {
    var name := q[k..e];
    assert forall j :: 0 <= j < e - k ==> name[j] == q[k..][j];
    assert p[k..e] == p[..e][k..] == q[..e][k..] == name;
    assert p[k..] == name + p[e..];
    assert e < |p| ==> p[e..][0] == p[e];
    SegmentEndConcat(name, p[e..]);
  }

  // ---------------------------------------------------------------- insertChild

  /** Below a fresh node a pattern is accepted exactly if it is well-formed. */
  lemma {:induction false} InsertFreshIff(t: Trie, numParams: Uint8, s: string, h: Handlers)
    requires t.path == "" && t.children == [] && numParams == CountWild(s)
    ensures InsertChild(t, numParams, s, h).Some? <==> WellFormed(s)
    decreases |s|, 1
  {
    CountWildZero(s);
    if numParams == 0 {
      NoFirstWild(s);
    } else {
      HasFirstWild(s);
      InsertWildIff(t, numParams, s, h);
    }
  }

  lemma NoFirstWild(s: string)
    requires NoWild(s)
    ensures FirstWild(s) == |s|
  {
  }

  lemma {:induction false} InsertWildIff(t: Trie, numParams: Uint8, s: string, h: Handlers)
    requires t.children == [] && numParams == CountWild(s) && numParams > 0 && FirstWild(s) < |s|
    requires t.path == "" || FirstWild(s) == 0
    ensures InsertChild(t, numParams, s, h).Some? <==> WellFormed(s)
    decreases |s|, 0
  {
    var i := FirstWild(s);
    var end := WildEnd(s, i);
    if NoWild(s[i + 1..end]) && end - i >= 2 {
      CutCounts(s, i, end);
      assert end == |s| ==> s[end..] == "";
      if s[i] == ':' && end < |s| {
        InsertFreshIff(EmptyTrie.(maxParams := numParams - 1, priority := 1), numParams - 1, s[end..], h);
      }
    }
  }

  // ---------------------------------------------------------------- nodes

  /** What is stored at or below a node, behind its own path. */
  ghost predicate Stored(n: Trie, s: string, g: Handlers) {
    (s == "" && n.handlers == Some(g)) || AnyHas(n.children, s, g)
  }

  /** No stored route is repeated or in conflict, and what is left where the pattern parts from them is well-formed. */
  ghost predicate Free(n: Trie, rest: string) {
    && (forall s, g :: Stored(n, s, g) ==> Meet(rest, s).Parts?)
    && (exists s, g :: Stored(n, s, g) && Fit(rest, s))
  }

  /** The same for the routes with the node's path. */
  ghost predicate Open(t: Trie, p: string) {
    && (forall q, g :: HasRoute(t, q, g) ==> Meet(p, q).Parts?)
    && (exists q, g :: HasRoute(t, q, g) && Fit(p, q))
  }

  /** Every tree stores some route. */
  lemma {:induction false} SomeRoute(t: Trie) returns (q: string, g: Handlers)
    requires Shape(t)
    ensures HasRoute(t, q, g)
    decreases t
  {
    if t.handlers.Some? {
      q, g := t.path + "", t.handlers.value;
      RouteOf(t, "", g);
    } else {
      var s;
      s, g := SomeRoute(t.children[0]);
      q := t.path + s;
      RouteOf(t, s, g);
      assert AnyHas(t.children, s, g);
    }
  }

  /** What is stored behind a node's path does not begin with '*', and behind a wildcard it begins with '/'. */
  lemma StoredFirst(n: Trie, s: string, g: Handlers)
    requires Shape(n) && Stored(n, s, g)
    ensures s != "" ==>
              exists k :: 0 <= k < |n.children| && HasRoute(n.children[k], s, g) && s[0] == First(n.children[k])
    ensures s != "" ==> s[0] != '*' && (HoldsWildcard(n) ==> s[0] == '/')
  {
    if AnyHas(n.children, s, g) {
      var k :| 0 <= k < |n.children| && HasRoute(n.children[k], s, g);
      RouteFirst(n.children[k], s, g);
      ChildFirst(n, k);
    }
  }

  lemma ChildFirst(n: Trie, k: nat)
    requires Shape(n) && k < |n.children|
    ensures Shape(n.children[k]) && First(n.children[k]) != '*'
    ensures HoldsWildcard(n) ==> First(n.children[k]) == '/'
    ensures !n.wildChild ==> !IsWild(First(n.children[k]))
    ensures n.wildChild && n.nType.StaticNode? ==> n.children[k].nType.ParamNode? && k == 0
  {
    if n.nType.StaticNode? && !n.wildChild { assert Indexed(n.children[k], n.indices[k]); }
    if CatchAllHead(n) { LeafStartsWithSlash(n.children[k]); }
  }

  lemma StoredBelow(n: Trie, q: string, g: Handlers)
    requires HasRoute(n, q, g)
    ensures n.path <= q && var s := q[|n.path|..]; q == n.path + s && Stored(n, s, g)
  {
    var s := q[|n.path|..];
    assert q == n.path + s;
    RouteOf(n, s, g);
  }

  /** A pattern that goes on with '*' fits nowhere. */
  lemma MeetStar(rest: string, s: string)
    requires rest != "" && rest[0] == '*' && (s == "" || s[0] != '*')
    ensures !WellFormed(rest) && (Meet(rest, s) == Conflicts || Meet(rest, s) == Parts(rest))
  {
    assert FirstWild(rest) == 0;
    if s != "" && s[0] == ':' {
      var e := SegmentLength(s);
      assert s[..e][0] == s[0] && (e <= |rest| ==> rest[..e][0] == rest[0]);
    }
  }

  /** Past the node's own path only the rests count. */
  lemma MeetBelow(n: Trie, rest: string, s: string, g: Handlers)
    requires Shape(n) && Stored(n, s, g) && (HoldsWildcard(n) ==> rest == "" || rest[0] == '/')
    ensures var m := Meet(n.path + rest, n.path + s);
            m == Meet(rest, s) || (m == Conflicts && rest != "" && rest[0] == '*')
  {
    hide Meet;
    StoredFirst(n, s, g);
    if HoldsWildcard(n) {
      OwnWildcard(n);
      MeetWildcard(n.path, rest, s);
    } else {
      MeetLiteral(n.path, rest, s);
    }
  }

  lemma OwnWildcard(n: Trie)
    requires LocalShape(n) && HoldsWildcard(n)
    ensures n.path != "" && (n.path[0] == ':' || StartsCatchAll(n.path)) && '/' !in n.path[1..]
  {
    if n.nType.CatchAllNode? {
      assert n.path[0] == n.path[..2][0] && n.path[1] == n.path[..2][1];
      assert n.path[1..] == ['*'] + n.path[2..];
    }
  }

  lemma OpenAtNode(n: Trie, rest: string)
    requires Shape(n) && (HoldsWildcard(n) ==> rest == "" || rest[0] == '/')
    ensures Open(n, n.path + rest) <==> Free(n, rest)
  {
    hide Meet, WellFormed, Stored, HasRoute, Shape;
    var p := n.path + rest;
    forall s, g | Stored(n, s, g)
      ensures HasRoute(n, n.path + s, g)
      ensures if rest != "" && rest[0] == '*' then !Fit(p, n.path + s) && !Fit(rest, s)
              else Meet(p, n.path + s) == Meet(rest, s)
    {
      StoredHere(n, s, g);
      MeetBelow(n, rest, s, g);
      StoredFirst(n, s, g);
      if rest != "" && rest[0] == '*' { MeetStar(rest, s); }
    }
    forall q, g | HasRoute(n, q, g) ensures n.path <= q && q == n.path + q[|n.path|..] && Stored(n, q[|n.path|..], g) {
      StoredBelow(n, q, g);
    }
    if Open(n, p) {
      var q, g :| HasRoute(n, q, g) && Fit(p, q);
      assert Stored(n, q[|n.path|..], g) && Fit(rest, q[|n.path|..]);
    }
    if Free(n, rest) {
      var s, g :| Stored(n, s, g) && Fit(rest, s);
      assert HasRoute(n, n.path + s, g) && Fit(p, n.path + s);
    }
  }

  lemma StoredHere(n: Trie, s: string, g: Handlers)
    requires Stored(n, s, g)
    ensures HasRoute(n, n.path + s, g)
  {
    RouteOf(n, s, g);
  }

  lemma OpenSame(a: Trie, b: Trie, p: string)
    requires SameRoutes(a, b)
    ensures Open(a, p) <==> Open(b, p)
  {
    hide Meet, WellFormed, HasRoute;
  }

  // ---------------------------------------------------------------- the turns of the walk

  /** Where the pattern ends, only a repetition is refused. */
  lemma FreeAtLeaf(n: Trie)
    requires Shape(n)
    ensures Free(n, "") <==> n.handlers == None
  {
    hide Meet, WellFormed, AnyHas, HasRoute;
    forall s ensures Meet("", s) == (if s == "" then Repeats else Parts("")) && WellFormed("") { MeetEmpty(s); }
    if n.handlers == None {
      var q, g := SomeRoute(n);
      StoredBelow(n, q, g);
      forall s, g | Stored(n, s, g) ensures s != "" { StoredEmpty(n, s, g); }
      assert Stored(n, q[|n.path|..], g) && Fit("", q[|n.path|..]);
    } else {
      assert Stored(n, "", n.handlers.value);
    }
  }

  lemma MeetEmpty(s: string)
    ensures Meet("", s) == (if s == "" then Repeats else Parts("")) && WellFormed("")
  {
  }

  /** Below the children only longer patterns are stored. */
  lemma StoredEmpty(n: Trie, s: string, g: Handlers)
    requires Shape(n) && Stored(n, s, g) && n.handlers == None
    ensures s != ""
  {
    var k :| 0 <= k < |n.children| && HasRoute(n.children[k], s, g);
    RouteFirst(n.children[k], s, g);
  }

  /** Every route not below child `c` parts from the pattern right here. */
  ghost predicate OthersPart(n: Trie, rest: string, c: Trie) {
    && (forall s, g :: HasRoute(c, s, g) ==> Stored(n, s, g))
    && (forall s, g :: Stored(n, s, g) ==> HasRoute(c, s, g) || Meet(rest, s) == Parts(rest))
  }

  lemma FreeIffOpen(n: Trie, rest: string, c: Trie)
    requires OthersPart(n, rest, c) && Shape(c)
    ensures Free(n, rest) <==> Open(c, rest)
  {
    hide Meet, WellFormed, Stored, HasRoute, Shape;
    var q0, g0 := SomeRoute(c);
    assert Stored(n, q0, g0);
    if Free(n, rest) {
      var s, g :| Stored(n, s, g) && Fit(rest, s);
      if !HasRoute(c, s, g) {
        RestIsWellFormed(rest, q0);
        assert HasRoute(c, q0, g0) && Fit(rest, q0);
      }
    }
  }

  lemma OthersPartBy(n: Trie, rest: string, c: Trie, k: nat)
    requires rest != "" && k < |n.children| && SameRoutes(c, n.children[k])
    requires forall j :: 0 <= j < |n.children| && j != k ==> forall s, g :: HasRoute(n.children[j], s, g) ==>
             Meet(rest, s) == Parts(rest)
    ensures OthersPart(n, rest, c)
  {
    hide HasRoute;
    forall s, g | Stored(n, s, g) ensures HasRoute(c, s, g) || Meet(rest, s) == Parts(rest) {
      if AnyHas(n.children, s, g) {
        var j :| 0 <= j < |n.children| && HasRoute(n.children[j], s, g);
        assert j == k ==> HasRoute(c, s, g);
      }
    }
    forall s, g | HasRoute(c, s, g) ensures Stored(n, s, g) {
      assert HasRoute(n.children[k], s, g);
    }
  }

  /** Where the walk goes down. */
  lemma FreeBelow(n: Trie, rest: string, numParams: Uint8)
    requires rest != "" && Passed(n, rest, numParams) && NextAt(n, rest, numParams).Down?
    ensures var m := NextAt(n, rest, numParams);
            m.pos < |m.n.children| && Shape(m.n.children[m.pos]) && (Free(n, rest) <==> Open(m.n.children[m.pos], rest))
  {
    hide Free, Open;
    var m := NextAt(n, rest, numParams);
    if n.wildChild || (n.nType.ParamNode? && rest[0] == '/' && |n.children| == 1) {
      OnlyChildDown(n, rest, numParams);
    } else {
      StaticDown(n, rest, numParams);
    }
    FreeIffOpen(n, rest, m.n.children[m.pos]);
  }

  lemma OnlyChildDown(n: Trie, rest: string, numParams: Uint8)
    requires rest != "" && Passed(n, rest, numParams) && NextAt(n, rest, numParams).Down?
    requires n.wildChild || (n.nType.ParamNode? && rest[0] == '/' && |n.children| == 1)
    ensures var m := NextAt(n, rest, numParams);
            m.pos == 0 && |m.n.children| == 1 && Shape(m.n.children[0]) && OthersPart(n, rest, m.n.children[0])
  {
    var m := NextAt(n, rest, numParams);
    var c, w := n.children[0], m.n.children[0];
    EnterKeepsShape(c, numParams);
    CountsDoNotMatter(c, w.priority, w.maxParams);
    hide Meet, HasRoute, Shape;
    OthersPartBy(n, rest, w, 0);
  }

  lemma StaticDown(n: Trie, rest: string, numParams: Uint8)
    requires rest != "" && Passed(n, rest, numParams) && NextAt(n, rest, numParams).Down?
    requires !n.wildChild && !(n.nType.ParamNode? && rest[0] == '/' && |n.children| == 1)
    ensures var m := NextAt(n, rest, numParams);
            m.pos < |m.n.children| && Shape(m.n.children[m.pos]) && OthersPart(n, rest, m.n.children[m.pos])
  {
    hide Meet, HasRoute;
    var m := NextAt(n, rest, numParams);
    var k := IndexOf(n.indices, rest[0]);
    var c := n.children[k];
    IndexedChild(n, k);
    EnterKeepsShape(c, numParams);
    CountsDoNotMatter(c, c.priority + 1, c.maxParams);
    forall j | 0 <= j < |n.children| && j != k
      ensures forall s, g :: HasRoute(n.children[j], s, g) ==> Meet(rest, s) == Parts(rest)
    {
      SiblingsPart(n, rest, j);
    }
    hide Shape;
    OthersPartBy(n, rest, m.n.children[m.pos], k);
  }

  /** A child under another index byte. */
  lemma SiblingsPart(n: Trie, rest: string, j: nat)
    requires Shape(n) && !n.wildChild && j < |n.children| && rest != "" && rest[0] != ':'
    requires First(n.children[j]) != rest[0]
    ensures forall s, g :: HasRoute(n.children[j], s, g) ==> Meet(rest, s) == Parts(rest)
  {
    hide HasRoute;
    ChildFirst(n, j);
    forall s, g | HasRoute(n.children[j], s, g) ensures Meet(rest, s) == Parts(rest) {
      RouteFirst(n.children[j], s, g);
      MeetApart(rest, s);
    }
  }

  /** Every route parts from the pattern right here, so all that counts is what is left. */
  lemma FreeIffWellFormed(n: Trie, rest: string)
    requires Shape(n) && forall s, g :: Stored(n, s, g) ==> Meet(rest, s) == Parts(rest)
    ensures Free(n, rest) <==> WellFormed(rest)
  {
    hide Meet, WellFormed, Stored, HasRoute, Shape;
    var q, g := SomeRoute(n);
    StoredBelow(n, q, g);
    assert Stored(n, q[|n.path|..], g);
  }

  /** The first byte of the rest is new here. */
  lemma FreeAtNewChild(n: Trie, rest: string, numParams: Uint8)
    requires rest != "" && Passed(n, rest, numParams) && NextAt(n, rest, numParams).HangBelow?
    ensures Free(n, rest) <==> WellFormed(rest)
  {
    hide Meet, WellFormed, HasRoute, Free;
    NotAnIndex(n.indices, rest[0]);
    forall s, g | Stored(n, s, g) ensures Meet(rest, s) == Parts(rest) {
      if s == "" {
        MeetApart(rest, s);
      } else {
        var k :| 0 <= k < |n.children| && HasRoute(n.children[k], s, g);
        NewByte(n, rest, k);
        SiblingsPart(n, rest, k);
      }
    }
    FreeIffWellFormed(n, rest);
  }

  lemma NewByte(n: Trie, rest: string, k: nat)
    requires Shape(n) && !n.wildChild && rest != "" && rest[0] !in n.indices && k < |n.children|
    requires HoldsWildcard(n) ==> rest[0] == '/' && (n.nType.ParamNode? ==> |n.children| != 1)
    ensures First(n.children[k]) != rest[0]
  {
    if n.nType.StaticNode? { assert Indexed(n.children[k], n.indices[k]); }
  }

  /** A wildcard is hung below a node that has no child yet, and it is a parameter. */
  lemma FreeAtNewWildcard(n: Trie, rest: string, numParams: Uint8)
    requires rest != "" && Passed(n, rest, numParams) && NextAt(n, rest, numParams).HangHere?
    ensures Free(n, rest) <==> n.children == [] && WellFormed(rest)
  {
    hide Meet, WellFormed, HasRoute;
    StaticHang(n, rest, numParams);
    if n.children == [] {
      forall s, g | Stored(n, s, g) ensures Meet(rest, s) == Parts(rest) { MeetApart(rest, s); }
      FreeIffWellFormed(n, rest);
    } else if rest[0] == ':' {
      var q, g := SomeRoute(n.children[0]);
      RouteFirst(n.children[0], q, g);
      ChildFirst(n, 0);
      MeetBesideParam(rest, q);
      assert Stored(n, q, g);
    } else {
      forall s, g | Stored(n, s, g) ensures !Fit(rest, s) {
        StoredFirst(n, s, g);
        MeetStar(rest, s);
      }
    }
  }

  /** The pattern does not go on with the wildcard that stands here. */
  lemma FreeAtConflict(n: Trie, rest: string, numParams: Uint8)
    requires rest != "" && Passed(n, rest, numParams) && NextAt(n, rest, numParams).Conflict?
    ensures !Free(n, rest)
  {
    hide Meet, WellFormed, HasRoute;
    var w := n.children[0];
    assert Shape(w);
    OwnWildcard(w);
    var q, g := SomeRoute(w);
    BelowWildcard(w, q, g);
    assert q == w.path + q[|w.path|..];
    MeetOtherWildcard(w.path, rest, q[|w.path|..]);
    assert Stored(n, q, g);
  }

  // ---------------------------------------------------------------- the walk

  /** The walk accepts a pattern exactly if the routes below the node leave it open. */
  lemma {:induction false} WalkIff(entered: Trie, path: string, numParams: Uint8, h: Handlers)
    requires Shape(entered) && entered.priority > 0 && Enterable(entered, path) && Counted(entered, path, numParams)
    ensures Walk(entered, path, numParams, h).Some? <==> Open(entered, path)
    decreases Height(entered)
  {
    hide Open, Free, WellFormed, NextAt, Passed, Shape;
    SplitKeepsShapeAt(entered, path, numParams);
    SplitAtRoutes(entered, path, numParams);
    var n := SplitAt(RaiseMax(entered, numParams), path);
    var i := CommonPrefix(path, entered.path);
    var rest := path[i..];
    assert path == n.path + rest;
    OpenSame(n, entered, path);
    PassedMeans(n, rest, numParams);
    OpenAtNode(n, rest);
    if i == |path| {
      FreeAtLeaf(n);
    } else {
      var m := NextAt(n, rest, numParams);
      match m
      case Down(_, _, _, _) =>
        NextGoesDown(entered, path, numParams);
        DownCountedAt(n, rest, numParams);
        DownRest(n, rest, numParams);
        FreeBelow(n, rest, numParams);
        WalkIff(m.n.children[m.pos], m.rest, m.numParams, h);
      case HangBelow(_, _, _) =>
        HangRest(n, rest, numParams);
        FreeAtNewChild(n, rest, numParams);
        InsertFreshIff(m.n.children[m.pos], numParams, rest, h);
      case HangHere(_, _) =>
        StaticHang(n, rest, numParams);
        FreeAtNewWildcard(n, rest, numParams);
        InsertHereIff(n, numParams, rest, h);
      case Conflict =>
        FreeAtConflict(n, rest, numParams);
    }
  }

  lemma PassedMeans(n: Trie, rest: string, numParams: Uint8)
    requires Passed(n, rest, numParams)
    ensures Shape(n) && CountWild(rest) == numParams && (HoldsWildcard(n) ==> rest == "" || rest[0] == '/')
  {
  }

  lemma DownRest(n: Trie, rest: string, numParams: Uint8)
    requires rest != "" && Passed(n, rest, numParams) && NextAt(n, rest, numParams).Down?
    ensures NextAt(n, rest, numParams).rest == rest
  {
  }

  lemma HangRest(n: Trie, rest: string, numParams: Uint8)
    requires rest != "" && Passed(n, rest, numParams) && NextAt(n, rest, numParams).HangBelow?
    ensures var m := NextAt(n, rest, numParams);
            m.rest == rest && m.n.children[m.pos].path == "" && m.n.children[m.pos].children == []
  {
  }

  lemma InsertHereIff(n: Trie, numParams: Uint8, rest: string, h: Handlers)
    requires rest != "" && IsWild(rest[0]) && numParams == CountWild(rest)
    ensures InsertChild(n, numParams, rest, h).Some? <==> n.children == [] && WellFormed(rest)
  {
    hide WellFormed;
    if n.children == [] { InsertWildIff(n, numParams, rest, h); }
  }

  // ---------------------------------------------------------------- lists of routes

  /**
   A pattern is accepted beside the given ones if it repeats none of them, has no wildcard where one of them has
   another or a literal, and is well-formed from where it parts from one of them.
   */
  predicate Acceptable(pattern: string, routes: seq<Route>) {
    && (forall r <- routes :: Meet(pattern, r.pattern).Parts?)
    && (if routes == [] then WellFormed(pattern) else exists r <- routes :: Fit(pattern, r.pattern))
  }

  /** addRoute accepts exactly the acceptable patterns, and panics on all others. */
  lemma AddRouteIff(t: Trie, routes: seq<Route>, r: Route)
    requires Registrable(r)
    requires if routes == [] then t == EmptyTrie else Represents(t, routes)
    ensures AddRoute(t, r.pattern, r.handlers).Some? <==> Acceptable(r.pattern, routes)
  {
    hide WellFormed, Walk, InsertChild;
    if routes == [] {
      InsertFreshIff(Enter(EmptyTrie), CountParams(r.pattern), r.pattern, r.handlers);
    } else {
      AddToTreeIff(t, routes, r);
    }
  }

  lemma AddToTreeIff(t: Trie, routes: seq<Route>, r: Route)
    requires Registrable(r) && routes != [] && Represents(t, routes)
    ensures AddRoute(t, r.pattern, r.handlers).Some? <==> Acceptable(r.pattern, routes)
  {
    hide WellFormed, Walk, InsertChild, Meet, HasRoute;
    var p, h := r.pattern, r.handlers;
    var e := Enter(t);
    EnterKeepsShape(t, CountParams(p));
    CountsDoNotMatter(t, e.priority, t.maxParams);
    WalkIff(e, p, CountParams(p), h);
    OpenSame(e, t, p);
    OpenIffAcceptable(t, routes, p);
  }

  lemma OpenIffAcceptable(t: Trie, routes: seq<Route>, p: string)
    requires routes != [] && Represents(t, routes)
    ensures Open(t, p) <==> Acceptable(p, routes)
  {
    hide WellFormed, Meet, HasRoute, TreeOk;
    forall r | r in routes ensures HasRoute(t, r.pattern, r.handlers) {
      assert r == Route(r.pattern, r.handlers);
    }
    if Open(t, p) {
      var q, g :| HasRoute(t, q, g) && Fit(p, q);
      assert Route(q, g) in routes && Fit(p, Route(q, g).pattern);
    }
    if Acceptable(p, routes) {
      var r :| r in routes && Fit(p, r.pattern);
      assert HasRoute(t, r.pattern, r.handlers);
      forall q, g | HasRoute(t, q, g) ensures Meet(p, q).Parts? {
        assert Route(q, g) in routes && Meet(p, Route(q, g).pattern).Parts?;
      }
    }
  }

  /** A list of routes can be registered exactly if each of them is acceptable beside those before it. */
  lemma {:induction false} BuildIff(routes: seq<Route>)
    requires AllRegistrable(routes)
    ensures Build(routes).Some? <==> forall k :: 0 <= k < |routes| ==> Acceptable(routes[k].pattern, routes[..k])
    decreases |routes|
  {
    hide Acceptable, AddRoute, Represents;
    if routes != [] {
      var last := |routes| - 1;
      var before := routes[..last];
      BuildIff(before);
      forall k | 0 <= k < last ensures before[..k] == routes[..k] && before[k] == routes[k] {
      }
      if Build(before).Some? { AddRouteIff(Build(before).value, before, routes[last]); }
    }
  }

  // ---------------------------------------------------------------- consequences

  /** Patterns without wildcards never conflict. */
  lemma {:induction false} MeetStatic(p: string, q: string)
    requires NoWild(p) && NoWild(q)
    ensures if p == q then Meet(p, q) == Repeats else Fit(p, q)
    decreases |p|
  {
    NoFirstWild(p);
    if p != "" && q != "" && p[0] == q[0] {
      assert p == [p[0]] + p[1..] && q == [q[0]] + q[1..];
      MeetStatic(p[1..], q[1..]);
    }
  }

  /** A list of wildcard-free routes is accepted, in whatever order, exactly if no pattern comes twice. */
  lemma StaticRoutesAreAccepted(routes: seq<Route>)
    requires AllRegistrable(routes) && forall i :: 0 <= i < |routes| ==> NoWild(routes[i].pattern)
    ensures Build(routes).Some? <==> Distinct(routes)
  {
    hide Meet, WellFormed, Build;
    BuildIff(routes);
    forall k | 0 <= k < |routes|
      ensures Acceptable(routes[k].pattern, routes[..k]) <==>
              forall i :: 0 <= i < k ==> routes[i].pattern != routes[k].pattern
    {
      StaticAcceptable(routes[k].pattern, routes[..k]);
      assert forall i :: 0 <= i < k ==> routes[..k][i] == routes[i];
    }
  }

  lemma StaticAcceptable(p: string, before: seq<Route>)
    requires NoWild(p) && forall i :: 0 <= i < |before| ==> NoWild(before[i].pattern)
    ensures Acceptable(p, before) <==> forall i :: 0 <= i < |before| ==> before[i].pattern != p
  {
    hide Meet;
    NoFirstWild(p);
    forall i | 0 <= i < |before|
      ensures if p == before[i].pattern then Meet(p, before[i].pattern) == Repeats else Fit(p, before[i].pattern)
    {
      MeetStatic(p, before[i].pattern);
    }
    if before != [] { assert before[0] in before; }
  }

  /**
   A segment behind a catch-all is accepted once the catch-all itself is registered, and otherwise not.  Accepted, such
   a route is never served, as its catch-all is not its last segment.
   */
  lemma BehindCatchAllIsAccepted(name: string, tail: string)
    requires name != "" && NoWild(name) && '/' !in name && NoWild(tail)
    ensures var w, q := "/*" + name, "/*" + name + ("/" + tail);
            && AllRegistrable([Route(w, 1), Route(q, 2)]) && !CatchAllIsLast(q)
            && Build([Route(w, 1), Route(q, 2)]).Some? && Build([Route(q, 2)]) == None
  {
    hide Build, Acceptable, Meet, WellFormed;
    var w, s := "/*" + name, "/" + tail;
    var a, b := Route(w, 1), Route(w + s, 2);
    CatchAllCounts(name, tail);
    BuildIff([a, b]);
    BuildIff([b]);
    assert [a, b][..0] == [] && [a, b][..1] == [a] && [b][..0] == [];
    assert Acceptable(w, []) by { CatchAllAcceptable(name, s); }
    assert Acceptable(w + s, [a]) && !Acceptable(w + s, []) && !CatchAllIsLast(w + s) by {
      CatchAllAcceptable(name, s);
    }
  }

  lemma CatchAllCounts(name: string, tail: string)
    requires NoWild(name) && NoWild(tail)
    ensures CountWild("/*" + name) == 1 && CountWild("/*" + name + ("/" + tail)) == 1
  {
    assert "/*"[1..] == "*" && "*"[1..] == "";
    CountWildConcat("/*", name);
    CountWildConcat("/*" + name, "/" + tail);
    CountWildZero(name);
    CountWildZero("/" + tail);
  }

  lemma CatchAllAcceptable(name: string, s: string)
    requires name != "" && NoWild(name) && '/' !in name && NoWild(s) && s != "" && s[0] == '/'
    ensures var w := "/*" + name;
            && Acceptable(w, []) && Acceptable(w + s, [Route(w, 1)]) && !Acceptable(w + s, [])
            && !CatchAllIsLast(w + s)
  {
    hide Meet, WellFormed;
    var w := "/*" + name;
    assert w + "" == w;
    CatchAllWellFormed(name, "");
    CatchAllWellFormed(name, s);
    MeetWildcard(w, s, "");
    MeetApart(s, "");
    NoFirstWild(s);
    StaticWellFormed(s);
    assert Route(w, 1) in [Route(w, 1)];
  }

  lemma StaticWellFormed(s: string)
    requires NoWild(s)
    ensures WellFormed(s)
  {
    NoFirstWild(s);
  }

  /** A catch-all pattern is well-formed exactly if nothing comes behind it. */
  lemma CatchAllWellFormed(name: string, s: string)
    requires name != "" && NoWild(name) && '/' !in name && (s == "" || s[0] == '/')
    ensures var x := "/*" + name + s;
            && (WellFormed(x) <==> s == "") && (CatchAllIsLast(x) <==> s == "")
            && StartsCatchAll("/*" + name) && '/' !in ("/*" + name)[1..]
  {
    var x := "/*" + name + s;
    FirstWildShift(x);
    FirstWildShift(x[1..]);
    assert x[2..] == name + s;
    SegmentEndConcat(name, s);
    assert x[2..2 + |name|] == name;
    assert ("/*" + name)[1..] == "*" + name;
  }
}
