/**
 The rules in the documentation of cleanPath, as equations between paths: what is merged, dropped or kept.  Together
 with the root they determine every result.
 */
module CleanPathRules {
  import opened Common
  import opened RoutePattern
  import opened CleanPath

  function Stack(p: string): seq<string> {
    Resolve([], Split(p))
  }

  lemma {:induction false} SplitConcat(s: string, t: string)
    ensures Split(s + "/" + t) == Split(s) + Split(t)
    decreases |s|
  {
    var k := SegmentEnd(s);
    if k == |s| {
      SplitAtSlash(s, t);
      SplitWhole(s);
    } else {
      var e, r := s[..k], s[k + 1..];
      assert s == e + "/" + r;
      assert s + "/" + t == e + "/" + (r + "/" + t);
      SplitAtSlash(e, r);
      SplitAtSlash(e, r + "/" + t);
      SplitConcat(r, t);
    }
  }

  lemma {:induction false} ResolveConcat(stack: seq<string>, a: seq<string>, b: seq<string>)
    ensures Resolve(stack, a + b) == Resolve(Resolve(stack, a), b)
    decreases |a|
  {
    hide Push;
    if a == [] {
      assert a + b == b;
    } else {
      assert (a + b)[0] == a[0] && (a + b)[1..] == a[1..] + b;
      ResolveConcat(Push(stack, a[0]), a[1..], b);
    }
  }

  lemma StackConcat(s: string, t: string)
    ensures Stack(s + "/" + t) == Resolve(Stack(s), Split(t)) && Last(Split(s + "/" + t)) == Last(Split(t))
  {
    hide Split, Resolve;
    SplitConcat(s, t);
    ResolveConcat([], Split(s), Split(t));
  }

  /** One more element. */
  lemma StackElement(s: string, e: string)
    requires '/' !in e
    ensures Stack(s + "/" + e) == Push(Stack(s), e) && Last(Split(s + "/" + e)) == e
  {
    hide Split, Resolve, Push;
    StackConcat(s, e);
    SplitWhole(e);
    ResolveOne(Stack(s), e);
  }

  lemma CleanOfStack(p: string)
    ensures Clean(p) == if Stack(p) != [] && Trailing(p) then Text(Stack(p)) + "/" else Text(Stack(p))
    ensures AllKept(Stack(p))
  {
    StackKept(p);
    if p == "" {
      SplitWhole("");
      ResolveOne([], "");
    }
  }

  /** The path of one element with a slash behind it: the slash is lost. */
  predicate LosesSlash(a: string, b: string) {
    b == "" && |a| == 1 && Kept(a)
  }

  lemma {:induction false} LastIsEmpty(b: string)
    requires b == "" || b[|b| - 1] == '/'
    ensures Last(Split(b)) == ""
  {
    hide Split;
    if b == "" {
      SplitWhole(b);
    } else {
      var s := b[..|b| - 1];
      assert b == s + "/" + "";
      StackElement(s, "");
    }
  }

  /** `x` is `a` with something behind it that leaves the stack as it is: in front of a slash it makes no difference. */
  lemma Dropped(a: string, x: string, b: string)
    requires Stack(x) == Stack(a) && |x| > |a|
    ensures Clean(x + "/" + b) == Clean(a + "/" + b) <==> !LosesSlash(a, b)
  {
    hide Stack, Split, Text, AllKept, Clean;
    var p, q := x + "/" + b, a + "/" + b;
    StackConcat(x, b);
    StackConcat(a, b);
    CleanOfStack(p);
    CleanOfStack(q);
    assert (p[|p| - 1] == '/') == (q[|q| - 1] == '/') == (b == "" || b[|b| - 1] == '/');
    if b == "" || b[|b| - 1] == '/' { LastIsEmpty(b); }
    assert |p| > |q| && |q| == |a| + 1 + |b|;
    if |q| <= 2 && q[|q| - 1] == '/' { ShortPath(a, b); }
  }

  /** Paths of at most two bytes that end with a slash. */
  lemma ShortPath(a: string, b: string)
    requires |a| + |b| <= 1 && (b == "" || b == "/")
    ensures Resolve(Stack(a), Split(b)) != [] <==> LosesSlash(a, b)
  {
    if b == "/" {
      assert "/" == "" + "/" + "" && a == "";
      SplitAtSlash("", "");
      SplitWhole("");
      assert [""] + [""] == ["", ""];
      ResolveOne([], "");
      ResolveCons([], "", [""]);
    } else {
      SplitWhole("");
      ResolveOne(Stack(a), "");
      if a == "/" {
        assert a == "" + "/" + "";
        SplitAtSlash("", "");
        assert [""] + [""] == ["", ""];
        ResolveCons([], "", [""]);
        ResolveOne([], "");
      } else {
        SplitWhole(a);
        ResolveOne([], a);
      }
    }
  }

  // ---------------------------------------------------------------- the rules

  /** Rule 1: slashes are merged. */
  lemma SlashesMerge(a: string, b: string)
    ensures Clean(a + "//" + b) == Clean(a + "/" + b) <==> !LosesSlash(a, b)
  {
    hide Clean, Stack;
    StackElement(a, "");
    assert a + "/" + "" + "/" + b == a + "//" + b;
    Dropped(a, a + "/" + "", b);
  }

  /** Rule 2: "." is dropped. */
  lemma DotIsDropped(a: string, b: string)
    ensures Clean(a + "/./" + b) == Clean(a + "/" + b) <==> !LosesSlash(a, b)
  {
    hide Clean, Stack;
    StackElement(a, ".");
    assert a + "/" + "." + "/" + b == a + "/./" + b;
    Dropped(a, a + "/" + ".", b);
  }

  /** Rule 3: ".." is dropped together with the element in front of it. */
  lemma ParentIsDropped(a: string, e: string, b: string)
    requires Kept(e)
    ensures Clean(a + "/" + e + "/../" + b) == Clean(a + "/" + b) <==> !LosesSlash(a, b)
  {
    hide Clean, Stack;
    StackElement(a, e);
    StackElement(a + "/" + e, "..");
    var s := Stack(a);
    assert (s + [e])[..|s|] == s;
    assert a + "/" + e + "/" + ".." + "/" + b == a + "/" + e + "/../" + b;
    Dropped(a, a + "/" + e + "/" + "..", b);
  }

  /** The same at the end of the path. */
  lemma ParentAtEnd(a: string, e: string)
    requires Kept(e)
    ensures Clean(a + "/" + e + "/..") == Text(Stack(a))
    ensures !Trailing(a) ==> Clean(a + "/" + e + "/..") == Clean(a)
  {
    hide Clean, Stack, Split, Text;
    StackElement(a, e);
    StackElement(a + "/" + e, "..");
    var s := Stack(a);
    assert (s + [e])[..|s|] == s;
    var p := a + "/" + e + "/" + "..";
    assert p == a + "/" + e + "/.." && p[|p| - 1] == '.';
    CleanOfStack(p);
    CleanOfStack(a);
  }

  /** Rule 4: ".." at the beginning is dropped. */
  lemma RootHasNoParent(b: string)
    ensures Clean("/../" + b) == Clean("/" + b)
  {
    hide Clean, Stack;
    StackElement("", "..");
    EmptyStack();
    assert "" + "/" + ".." + "/" + b == "/../" + b && "" + "/" + b == "/" + b;
    Dropped("", "" + "/" + "..", b);
  }

  lemma EmptyStack()
    ensures Stack("") == []
  {
    SplitWhole("");
    ResolveOne([], "");
  }

  /** Any other element is kept: it stands behind the clean path of what is in front of it. */
  lemma ElementIsKept(a: string, e: string)
    requires Kept(e)
    ensures Clean(a + "/" + e) == (if Stack(a) == [] then "/" + e else Text(Stack(a)) + "/" + e)
    ensures !Trailing(a) ==> Clean(a + "/" + e) == (if Clean(a) == "/" then "/" + e else Clean(a) + "/" + e)
  {
    hide Stack, Split, Text, Clean;
    var p := a + "/" + e;
    StackElement(a, e);
    TextPush(Stack(a), e);
    assert p[|p| - 1] == e[|e| - 1];
    CleanOfStack(p);
    CleanOfStack(a);
    TextLength(Stack(a));
  }
}
