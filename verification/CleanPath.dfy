/**
 Canonical URL paths.  The loop that works on the path itself and allocates a buffer only once the
 result differs is proved equal to a specification that folds the path elements through a stack.
 */
module CleanPath {
  import opened Common
  import opened RoutePattern

  // ---------------------------------------------------------------- specification

  /** The elements between the slashes. */
  function Split(s: string): (es: seq<string>)
    ensures |es| > 0
    decreases |s|
  {
    var e := SegmentEnd(s);
    if e == |s| then [s] else [s[..e]] + Split(s[e + 1..])
  }

  /** One element on the stack of kept elements: "" and "." are dropped, ".." removes the last one. */
  function Push(stack: seq<string>, e: string): seq<string> {
    if e == "" || e == "." then stack
    else if e == ".." then (if stack == [] then [] else stack[..|stack| - 1])
    else stack + [e]
  }

  function Resolve(stack: seq<string>, es: seq<string>): seq<string>
    decreases |es|
  {
    if es == [] then stack else Resolve(Push(stack, es[0]), es[1..])
  }

  function Join(stack: seq<string>): string {
    if stack == [] then "" else Join(stack[..|stack| - 1]) + "/" + stack[|stack| - 1]
  }

  /** The stack written as an absolute path. */
  function Text(stack: seq<string>): string {
    if stack == [] then "/" else Join(stack)
  }

  function Last(es: seq<string>): string
    requires es != []
  {
    es[|es| - 1]
  }

  /** A trailing slash is kept, except on paths of two bytes, and a final "." asks for one. */
  predicate Trailing(p: string) {
    (|p| > 2 && p[|p| - 1] == '/') || Last(Split(p)) == "."
  }

  function Clean(p: string): string {
    if p == "" then "/"
    else
      var stack := Resolve([], Split(p));
      if stack != [] && Trailing(p) then Text(stack) + "/" else Text(stack)
  }

  predicate Kept(e: string) {
    e != "" && e != "." && e != ".." && '/' !in e
  }

  predicate AllKept(es: seq<string>) {
    forall i :: 0 <= i < |es| ==> Kept(es[i])
  }

  // ---------------------------------------------------------------- the elements of a rest of the path

  predicate NoSlash(p: string, r: nat, k: nat)
    requires r <= k <= |p|
  {
    forall j :: r <= j < k ==> p[j] != '/'
  }

  lemma SplitAtSlash(e: string, s: string)
    requires '/' !in e
    ensures Split(e + "/" + s) == [e] + Split(s)
  {
    var t := e + "/" + s;
    assert t == e + ("/" + s);
    SegmentEndConcat(e, "/" + s);
    assert t[..|e|] == e && t[|e| + 1..] == s;
  }

  lemma SplitWhole(e: string)
    requires '/' !in e
    ensures Split(e) == [e]
  {
    SegmentEndConcat(e, "");
    assert e + "" == e;
  }

  /** Consuming the element at the front leaves the same elements to resolve, up to an empty one. */
  lemma SkipElement(p: string, r: nat, k: nat, stack: seq<string>)
    requires r <= k <= |p| && NoSlash(p, r, k) && (k < |p| ==> p[k] == '/')
    ensures Resolve(stack, Split(p[r..])) == Resolve(Push(stack, p[r..k]), Split(p[k..]))
    ensures Last(Split(p[r..])) == (if k == |p| then p[r..k] else Last(Split(p[k..])))
  {
    var e := p[r..k];
    assert '/' !in e;
    if k == |p| {
      assert p[r..] == e;
      SplitWhole(e);
      SplitWhole("");
      assert p[k..] == "";
      ResolveOne(stack, e);
      ResolveOne(Push(stack, e), "");
    } else {
      var s := p[k + 1..];
      assert p[r..] == e + "/" + s && p[k..] == "" + "/" + s;
      SplitAtSlash(e, s);
      SplitAtSlash("", s);
      ResolveCons(stack, e, Split(s));
      ResolveCons(Push(stack, e), "", Split(s));
    }
  }

  lemma StepSlash(p: string, r: nat, stack: seq<string>)
    requires r < |p| && p[r] == '/'
    ensures Resolve(stack, Split(p[r..])) == Resolve(stack, Split(p[r + 1..]))
    ensures Last(Split(p[r..])) == Last(Split(p[r + 1..]))
  {
    assert p[r..] == "" + "/" + p[r + 1..];
    SplitAtSlash("", p[r + 1..]);
    ResolveCons(stack, "", Split(p[r + 1..]));
  }

  /** The elements read so far are on `stack`, and the rest of the path decides the rest. */
  ghost predicate Progress(p: string, r: nat, stack: seq<string>, trailing: bool) {
    && r <= |p| && AllKept(stack)
    && Resolve([], Split(p)) == Resolve(stack, Split(p[r..]))
    && (Trailing(p) <==> trailing || Last(Split(p[r..])) == ".")
    && (trailing && r < |p| ==> p[|p| - 1] == '/')
  }

  lemma ProgressStart(p: string, r: nat)
    requires p != "" && r == (if p[0] == '/' then 1 else 0)
    ensures Progress(p, r, [], |p| > 2 && p[|p| - 1] == '/')
  {
    assert p[0..] == p;
    if r == 1 { StepSlash(p, 0, []); }
  }

  lemma ProgressSlash(p: string, r: nat, stack: seq<string>, trailing: bool)
    requires Progress(p, r, stack, trailing) && r < |p| && p[r] == '/'
    ensures Progress(p, r + 1, stack, trailing)
  {
    StepSlash(p, r, stack);
  }

  lemma ProgressElement(p: string, r: nat, k: nat, stack: seq<string>, trailing: bool)
    requires Progress(p, r, stack, trailing) && r < k <= |p|
    requires NoSlash(p, r, k) && (k < |p| ==> p[k] == '/')
    ensures Progress(p, k, Push(stack, p[r..k]), trailing || (k == |p| && p[r..k] == "."))
  {
    hide Split, Resolve, Trailing;
    assert '/' !in p[r..k];
    PushKeeps(stack, p[r..k]);
    SkipElement(p, r, k, stack);
    if k == |p| { SplitWhole(""); assert p[k..] == ""; }
  }

  lemma PushKeeps(stack: seq<string>, e: string)
    requires AllKept(stack) && '/' !in e
    ensures AllKept(Push(stack, e))
  {
  }

  lemma ProgressEnd(p: string, stack: seq<string>, trailing: bool)
    requires Progress(p, |p|, stack, trailing) && p != ""
    ensures Clean(p) == (if stack != [] && trailing then Text(stack) + "/" else Text(stack))
  {
    assert p[|p|..] == "";
    SplitWhole("");
    ResolveOne(stack, "");
  }

  lemma ResolveOne(stack: seq<string>, e: string)
    ensures Resolve(stack, [e]) == Push(stack, e)
  {
    assert [e][1..] == [];
  }

  lemma ResolveCons(stack: seq<string>, e: string, es: seq<string>)
    ensures Resolve(stack, [e] + es) == Resolve(Push(stack, e), es)
  {
    assert ([e] + es)[1..] == es;
  }

  lemma {:induction false} ResolveKeeps(stack: seq<string>, es: seq<string>)
    requires AllKept(stack) && forall i :: 0 <= i < |es| ==> '/' !in es[i]
    ensures AllKept(Resolve(stack, es))
    decreases |es|
  {
    if es != [] { ResolveKeeps(Push(stack, es[0]), es[1..]); }
  }

  lemma {:induction false} SplitHasNoSlash(s: string)
    ensures forall i :: 0 <= i < |Split(s)| ==> '/' !in Split(s)[i]
    decreases |s|
  {
    var e := SegmentEnd(s);
    if e < |s| {
      SplitHasNoSlash(s[e + 1..]);
      assert '/' !in s[..e];
    } else {
      assert '/' !in s;
    }
  }

  lemma TextPush(stack: seq<string>, e: string)
    ensures Text(stack + [e]) == (if stack == [] then "/" + e else Text(stack) + "/" + e)
  {
    assert (stack + [e])[..|stack|] == stack;
    if stack == [] { assert Join([]) + "/" + e == "/" + e; }
  }

  lemma TextLength(stack: seq<string>)
    requires AllKept(stack)
    ensures |Text(stack)| >= 1 && Text(stack)[0] == '/'
    ensures |Text(stack)| > 1 <==> stack != []
  {
    if stack != [] {
      var init := stack[..|stack| - 1];
      assert stack == init + [Last(stack)];
      assert Kept(Last(stack));
      TextPush(init, Last(stack));
      if init != [] { TextLength(init); }
    }
  }

  // ---------------------------------------------------------------- the lazy buffer

  /** The first `w` bytes of the result: those of the path itself until a buffer exists. */
  ghost function Content(buf: array?<char>, s: string, w: nat): string
    requires w <= Room(buf, s)
    reads buf
  {
    if buf == null then s[..w] else buf[..w]
  }

  /** The room for the result: the path itself, or a buffer of its length or one more. */
  function Room(buf: array?<char>, p: string): nat {
    if buf == null then |p| else buf.Length
  }

  /** bufApp: writes one byte, creating the buffer if the path does not already hold that byte there. */
  method BufApp(buf: array?<char>, s: string, w: nat, c: char) returns (b: array?<char>)
    requires w < Room(buf, s)
    modifies buf
    ensures w < Room(b, s)
    ensures Content(b, s, w + 1) == old(Content(buf, s, w)) + [c]
    ensures buf != null ==> b == buf
    ensures buf == null && b != null ==> fresh(b) && b.Length == |s|
  {
    b := buf;
    if b == null {
      if s[w] == c {
        return;
      }
      b := new char[|s|](i => '\0');
      forall i | 0 <= i < w {
        b[i] := s[i];
      }
      assert b[..w] == s[..w];
    }
    ghost var before := b[..w];
    b[w] := c;
    assert b[..w] == before;
  }

  /** Where the last kept element starts, slash included, in the text of a non-empty stack. */
  lemma LastElement(stack: seq<string>)
    requires AllKept(stack) && stack != []
    ensures var init := stack[..|stack| - 1];
            var t := Text(stack);
            var at := if init == [] then 1 else |Text(init)|;
            && 1 <= at < |t| && t[..at] == Text(init)
            && (at > 1 ==> t[at] == '/')
            && (forall k :: at < k < |t| ==> t[k] != '/')
            && AllKept(init)
  {
    var init := stack[..|stack| - 1];
    var e := Last(stack);
    assert stack == init + [e] && Kept(e);
    TextPush(init, e);
    TextLength(init);
  }

  /** Moves the write position back in front of the last element. */
  method Backtrack(buf: array?<char>, p: string, w: nat, ghost stack: seq<string>) returns (v: nat)
    requires w <= Room(buf, p)
    requires AllKept(stack) && Content(buf, p, w) == Text(stack) && w > 1
    ensures stack != [] && 1 <= v < w
    ensures Content(buf, p, v) == Text(stack[..|stack| - 1])
  {
    TextLength(stack);
    LastElement(stack);
    ghost var init := stack[..|stack| - 1];
    ghost var at := if init == [] then 1 else |Text(init)|;
    ghost var t := Text(stack);
    v := w - 1;
    if buf == null {
      assert forall k :: 0 <= k < w ==> p[k] == t[k];
      while v > 1 && p[v] != '/'
        invariant at <= v < w
      {
        v := v - 1;
      }
      assert p[..v] == t[..v];
    } else {
      assert forall k :: 0 <= k < w ==> buf[k] == t[k];
      while v > 1 && buf[v] != '/'
        invariant at <= v < w
      {
        v := v - 1;
      }
      assert buf[..v] == t[..v];
    }
  }

  /** Copies the element at `r` and stops at the slash behind it or at the end. */
  method CopyElement(buf: array?<char>, p: string, w: nat, r: nat) returns (b: array?<char>, v: nat, k: nat)
    requires r <= |p|
    requires buf == null ==> w <= r
    requires buf != null ==> w + |p| <= r + buf.Length
    modifies buf
    ensures r <= k <= |p| && NoSlash(p, r, k) && (k < |p| ==> p[k] == '/')
    ensures v == w + (k - r) && v <= Room(b, p)
    ensures Content(b, p, v) == old(Content(buf, p, w)) + p[r..k]
    ensures buf != null ==> b == buf
    ensures buf == null && b != null ==> fresh(b) && b.Length == |p|
  {
    hide Content;
    b, v, k := buf, w, r;
    while k < |p| && p[k] != '/'
      invariant r <= k <= |p| && NoSlash(p, r, k)
      invariant v == w + (k - r) && v <= Room(b, p)
      invariant Content(b, p, v) == old(Content(buf, p, w)) + p[r..k]
      invariant buf != null ==> b == buf
      invariant buf == null && b != null ==> fresh(b) && b.Length == |p|
    {
      assert p[r..k + 1] == p[r..k] + [p[k]];
      b := BufApp(b, p, v, p[k]);
      v := v + 1;
      k := k + 1;
    }
  }

  /** The read and write positions fit the path and the buffer; `n` is the length of the path. */
  ghost predicate Fits(buf: array?<char>, p: string, r: nat, w: nat, trailing: bool, stack: seq<string>)
    reads buf
  {
    var room := Room(buf, p);
    && r <= |p| && 1 <= w <= room && room <= |p| + 1
    && (buf == null ==> w <= r)
    && w + |p| <= r + room
    && (r < |p| && p[r] != '/' && w > 1 ==> w + |p| < r + room)
    && (r == |p| && trailing && w > 1 ==> w < room)
    && Content(buf, p, w) == Text(stack)
  }

  /** The loop invariant. */
  ghost predicate State(buf: array?<char>, p: string, r: nat, w: nat, trailing: bool, stack: seq<string>)
    reads buf
  {
    Progress(p, r, stack, trailing) && Fits(buf, p, r, w, trailing, stack)
  }

  /** What the loop finds at `r`: the cases of its switch, in order. */
  datatype Kind = Slash | LastDot | Dot | DotDot | Element

  function KindAt(p: string, r: nat): Kind
    requires r < |p|
  {
    if p[r] == '/' then Slash
    else if p[r] == '.' && r + 1 == |p| then LastDot
    else if p[r] == '.' && p[r + 1] == '/' then Dot
    else if p[r] == '.' && p[r + 1] == '.' && (r + 2 == |p| || p[r + 2] == '/') then DotDot
    else Element
  }

  /** An element other than "", "." and "..": a slash unless it is the first, then its bytes. */
  method TakeElement(buf: array?<char>, p: string, w: nat, r: nat, trailing: bool, ghost stack: seq<string>)
    returns (b: array?<char>, v: nat, k: nat)
    requires r < |p| && KindAt(p, r).Element? && State(buf, p, r, w, trailing, stack)
    modifies buf
    ensures r < k <= |p| && NoSlash(p, r, k) && (k < |p| ==> p[k] == '/')
    ensures if buf != null then b == buf else b == null || (fresh(b) && b.Length == |p|)
    ensures Fits(b, p, k, v, trailing, Push(stack, p[r..k]))
  {
    ProgressKeeps(p, r, stack, trailing);
    TextLength(stack);
    hide Progress, Push, Text, Join, Kept, AllKept;
    b, v := AddSlash(buf, p, w);
    ghost var front := Content(b, p, v);
    b, v, k := CopyElement(b, p, v, r);
    RealElement(p, r, k);
    PushedText(stack, p[r..k], front);
    hide KindAt, Content;
  }

  /** Adds a slash, except behind the root. */
  method AddSlash(buf: array?<char>, p: string, w: nat) returns (b: array?<char>, v: nat)
    requires w <= Room(buf, p) && (w > 1 ==> w < Room(buf, p))
    modifies buf
    ensures v == (if w > 1 then w + 1 else w) && v <= Room(b, p) == Room(buf, p)
    ensures Content(b, p, v) == old(Content(buf, p, w)) + (if w > 1 then ['/'] else [])
    ensures b == buf || (buf == null && fresh(b))
  {
    b, v := buf, w;
    if v > 1 {
      b := BufApp(b, p, v, '/');
      v := v + 1;
    }
  }

  lemma PushedText(stack: seq<string>, e: string, front: string)
    requires Kept(e) && |Text(stack)| >= 1 && Text(stack)[0] == '/' && (|Text(stack)| > 1 <==> stack != [])
    requires front == (if |Text(stack)| > 1 then Text(stack) + ['/'] else Text(stack))
    ensures Text(Push(stack, e)) == front + e
  {
    TextPush(stack, e);
  }

  lemma ProgressKeeps(p: string, r: nat, stack: seq<string>, trailing: bool)
    requires Progress(p, r, stack, trailing)
    ensures AllKept(stack) && (trailing && r < |p| ==> p[|p| - 1] == '/')
  {
  }

  lemma RealElement(p: string, r: nat, k: nat)
    requires r < |p| && KindAt(p, r).Element?
    requires r <= k <= |p| && NoSlash(p, r, k) && (k < |p| ==> p[k] == '/')
    ensures k > r && Kept(p[r..k])
  {
    var e := p[r..k];
    assert '/' !in e;
    assert k > r;
    assert e[0] == p[r];
    if |e| >= 2 { assert e[1] == p[r + 1]; }
  }

  /** The element "..": the last kept element goes, if there is one. */
  method DropElement(buf: array?<char>, p: string, w: nat, r: nat, trailing: bool, ghost stack: seq<string>)
      returns (v: nat)
    requires r < |p| && KindAt(p, r).DotDot? && State(buf, p, r, w, trailing, stack)
    ensures Fits(buf, p, r + 2, v, trailing, Push(stack, ".."))
  {
    ProgressKeeps(p, r, stack, trailing);
    TextLength(stack);
    hide Progress;
    v := w;
    if w > 1 {
      v := Backtrack(buf, p, w, stack);
    }
  }

  // ---------------------------------------------------------------- cleanPath

  method Begin(p: string) returns (buf: array?<char>, r: nat)
    requires p != ""
    ensures r == (if p[0] == '/' then 1 else 0)
    ensures buf != null ==> fresh(buf)
    ensures Room(buf, p) == (if p[0] == '/' then |p| else |p| + 1)
    ensures State(buf, p, r, 1, |p| > 2 && p[|p| - 1] == '/', [])
  {
    ProgressStart(p, if p[0] == '/' then 1 else 0);
    hide Progress;
    buf, r := null, 1;
    if p[0] != '/' {
      r := 0;
      buf := new char[|p| + 1](i => '\0');
      buf[0] := '/';
    }
  }

  method End(buf: array?<char>, p: string, w: nat, trailing: bool, ghost stack: seq<string>) returns (clean: string)
    requires p != "" && State(buf, p, |p|, w, trailing, stack)
    modifies buf
    ensures clean == Clean(p) && |clean| <= Room(buf, p)
  {
    ProgressEnd(p, stack, trailing);
    TextLength(stack);
    hide Clean, Progress, Text;
    var b, v := buf, w;
    if trailing && v > 1 {
      b := BufApp(b, p, v, '/');
      v := v + 1;
    }
    clean := if b == null then p[..v] else b[..v];
  }

  /** One turn of the loop. */
  method Turn(buf: array?<char>, p: string, r: nat, w: nat, trailing: bool, ghost stack: seq<string>)
    returns (b: array?<char>, k: nat, v: nat, t: bool, ghost stack': seq<string>)
    requires r < |p| && State(buf, p, r, w, trailing, stack)
    modifies buf
    ensures r < k <= |p| && State(b, p, k, v, t, stack')
    ensures b == buf || fresh(b)
    ensures Room(b, p) == Room(buf, p)
  {
    hide State, Push, KindAt;
    b, v, t := buf, w, trailing;
    match KindAt(p, r)
    case Slash =>
      PassSlash(buf, p, r, w, trailing, stack);
      k, stack' := r + 1, stack;
    case LastDot =>
      PassDot(buf, p, r, w, trailing, stack);
      k, t, stack' := r + 1, true, stack;
    case Dot =>
      PassDot(buf, p, r, w, trailing, stack);
      k, stack' := r + 1, stack;
    case DotDot =>
      v := DropElement(buf, p, w, r, trailing, stack);
      PassDotDot(buf, p, r, w, v, stack, trailing);
      k, stack' := r + 2, Push(stack, "..");
    case Element =>
      PassElement(buf, p, r, w, stack, trailing);
      b, v, k := TakeElement(buf, p, w, r, trailing, stack);
      stack' := Push(stack, p[r..k]);
      StateElement(b, p, r, k, v, stack, trailing);
  }

  /** The result is the specified one, at most one byte longer than the path, and only if the path lacks its slash. */
  method CleanPath(p: string) returns (clean: string)
    ensures clean == Clean(p)
    ensures |clean| <= |p| + (if p != "" && p[0] == '/' then 0 else 1)
  {
    if p == "" {
      return "/";
    }
    hide State, Clean, Split;
    var w := 1;
    var buf, r := Begin(p);
    var trailing := |p| > 2 && p[|p| - 1] == '/';
    ghost var stack: seq<string> := [];
    while r < |p|
      invariant r <= |p| && State(buf, p, r, w, trailing, stack)
      invariant buf == null || fresh(buf)
      invariant Room(buf, p) == (if p[0] == '/' then |p| else |p| + 1)
    {
      buf, r, w, trailing, stack := Turn(buf, p, r, w, trailing, stack);
    }
    clean := End(buf, p, w, trailing, stack);
  }

  lemma PassSlash(buf: array?<char>, p: string, r: nat, w: nat, trailing: bool, stack: seq<string>)
    requires r < |p| && KindAt(p, r).Slash? && State(buf, p, r, w, trailing, stack)
    ensures State(buf, p, r + 1, w, trailing, stack)
  {
    ProgressSlash(p, r, stack, trailing);
    hide Progress, Content, Text;
  }

  lemma PassDot(buf: array?<char>, p: string, r: nat, w: nat, trailing: bool, stack: seq<string>)
    requires r < |p| && (KindAt(p, r).Dot? || KindAt(p, r).LastDot?) && State(buf, p, r, w, trailing, stack)
    ensures State(buf, p, r + 1, w, trailing || KindAt(p, r).LastDot?, stack)
  {
    hide Progress, Content, Text;
    assert p[r..r + 1] == ".";
    ProgressElement(p, r, r + 1, stack, trailing);
  }

  lemma PassDotDot(buf: array?<char>, p: string, r: nat, w: nat, v: nat, stack: seq<string>, trailing: bool)
    requires r < |p| && KindAt(p, r).DotDot? && State(buf, p, r, w, trailing, stack)
    requires Fits(buf, p, r + 2, v, trailing, Push(stack, ".."))
    ensures r + 2 <= |p| && State(buf, p, r + 2, v, trailing, Push(stack, ".."))
  {
    hide Progress, Push, Fits;
    assert p[r..r + 2] == "..";
    ProgressElement(p, r, r + 2, stack, trailing);
  }

  lemma PassElement(buf: array?<char>, p: string, r: nat, w: nat, stack: seq<string>, trailing: bool)
    requires r < |p| && KindAt(p, r).Element? && State(buf, p, r, w, trailing, stack)
    ensures Progress(p, r, stack, trailing)
  {
  }

  lemma StateElement(b: array?<char>, p: string, r: nat, k: nat, v: nat, stack: seq<string>, trailing: bool)
    requires r < k <= |p| && KindAt(p, r).Element? && Progress(p, r, stack, trailing)
    requires NoSlash(p, r, k) && (k < |p| ==> p[k] == '/')
    requires Fits(b, p, k, v, trailing, Push(stack, p[r..k]))
    ensures State(b, p, k, v, trailing, Push(stack, p[r..k]))
  {
    hide Progress, Push, KindAt, Fits;
    RealElement(p, r, k);
    assert p[r..k] != ".";
    ProgressElement(p, r, k, stack, trailing);
  }

  // ---------------------------------------------------------------- canonical form

  lemma {:induction false} SplitAppend(s: string, e: string)
    requires '/' !in e
    ensures Split(s + "/" + e) == Split(s) + [e]
    decreases |s|
  {
    var k := SegmentEnd(s);
    if k == |s| {
      assert '/' !in s;
      SplitAtSlash(s, e);
      SplitWhole(e);
      SplitWhole(s);
    } else {
      var a, b := s[..k], s[k + 1..];
      assert '/' !in a;
      assert s == a + "/" + b;
      assert s + "/" + e == a + "/" + (b + "/" + e);
      SplitAtSlash(a, b + "/" + e);
      SplitAtSlash(a, b);
      SplitAppend(b, e);
      assert [a] + (Split(b) + [e]) == [a] + Split(b) + [e];
    }
  }

  lemma {:induction false} SplitText(stack: seq<string>)
    requires AllKept(stack) && stack != []
    ensures Split(Text(stack)) == [""] + stack
  {
    var init, e := stack[..|stack| - 1], Last(stack);
    assert stack == init + [e] && Kept(e);
    TextPush(init, e);
    if init == [] {
      assert "" + "/" + e == "/" + e;
      SplitAppend("", e);
      SplitWhole("");
    } else {
      SplitText(init);
      SplitAppend(Text(init), e);
      assert [""] + init + [e] == [""] + stack;
    }
  }

  lemma {:induction false} ResolveKept(base: seq<string>, stack: seq<string>, tail: seq<string>)
    requires AllKept(stack) && (tail == [] || tail == [""])
    ensures Resolve(base, stack + tail) == base + stack
    decreases |stack|
  {
    if stack == [] {
      assert [] + tail == tail;
      if tail != [] { ResolveOne(base, ""); }
    } else {
      assert Kept(stack[0]);
      assert stack + tail == [stack[0]] + (stack[1..] + tail);
      ResolveCons(base, stack[0], stack[1..] + tail);
      ResolveKept(base + [stack[0]], stack[1..], tail);
    }
  }

  /** The elements kept from a path. */
  lemma StackKept(p: string)
    ensures AllKept(Resolve([], Split(p)))
  {
    SplitHasNoSlash(p);
    ResolveKeeps([], Split(p));
  }

  predicate IsCanonical(c: string, stack: seq<string>) {
    && AllKept(stack) && c != "" && c[0] == '/'
    && (if stack == [] then c == "/" else Split(c) == [""] + stack || Split(c) == [""] + stack + [""])
  }

  /** The result starts with '/' and has no empty, "." or ".." element, but for the root and one trailing slash. */
  lemma CleanIsCanonical(p: string)
    ensures IsCanonical(Clean(p), if p == "" then [] else Resolve([], Split(p)))
  {
    var stack := if p == "" then [] else Resolve([], Split(p));
    StackKept(p);
    TextLength(stack);
    if stack != [] {
      SplitText(stack);
      SplitAppend(Text(stack), "");
      assert Text(stack) + "/" + "" == Text(stack) + "/";
    }
  }

  /**
   A slash at the end is kept in every path of three bytes or more that is not the root, and so is one asked for
   by a last element "."; but it is dropped from a path of two bytes.
   */
  lemma TrailingSlashIff(p: string)
    requires Clean(p) != "/"
    ensures Clean(p)[|Clean(p)| - 1] == '/' <==> (|p| > 2 && p[|p| - 1] == '/') || Last(Split(p)) == "."
    ensures |p| == 2 && p[1] == '/' ==> Clean(p) == "/" + p[..1]
  {
    var stack := if p == "" then [] else Resolve([], Split(p));
    StackKept(p);
    LastElement(stack);
    if |p| == 2 && p[1] == '/' { TwoBytes(p); }
  }

  lemma TwoBytes(p: string)
    requires |p| == 2 && p[1] == '/' && Clean(p) != "/"
    ensures Clean(p) == "/" + p[..1]
  {
    hide Split, Resolve, Text;
    var e := p[..1];
    if p[0] == '/' {
      assert p == "//";
      TwoSlashes();
    } else {
      assert p == e + "/" + "" && '/' !in e;
      SplitAtSlash(e, "");
      SplitWhole("");
      assert [e] + [""] == [e, ""];
      ResolveCons([], e, [""]);
      ResolveOne(Push([], e), "");
      TextPush([], e);
      TextNone();
      assert [] + [e] == [e];
    }
  }

  lemma TwoSlashes()
    ensures Clean("//") == "/"
  {
    hide Split, Resolve;
    assert "//" == "" + "/" + "/" && "/" == "" + "/" + "";
    SplitAtSlash("", "/");
    SplitAtSlash("", "");
    SplitWhole("");
    assert [""] + ([""] + [""]) == ["", "", ""] && [""] + ["", ""] == ["", "", ""] && [""] + [""] == ["", ""];
    ResolveCons([], "", ["", ""]);
    ResolveCons([], "", [""]);
    ResolveOne([], "");
  }

  lemma TextNone()
    ensures Text([]) == "/"
  {
  }

  /** Cleaning a clean path changes nothing. */
  lemma CleanIsIdempotent(p: string)
    ensures Clean(Clean(p)) == Clean(p)
  {
    var stack := if p == "" then [] else Resolve([], Split(p));
    StackKept(p);
    if stack == [] {
      assert Clean(p) == "/";
      SplitAtSlash("", "");
      SplitWhole("");
      assert "" + "/" + "" == "/" && [""] + [""] == ["", ""];
      ResolveCons([], "", [""]);
      ResolveOne([], "");
    } else {
      CleanTwice(stack, Trailing(p));
    }
  }

  /** Reading back the text of a stack, with or without a trailing slash. */
  lemma ReadBack(stack: seq<string>, trailing: bool)
    requires AllKept(stack) && stack != []
    ensures var c := if trailing then Text(stack) + "/" else Text(stack);
            Resolve([], Split(c)) == stack && Last(Split(c)) == (if trailing then "" else Last(stack))
  {
    hide AllKept, Split, Resolve, Text;
    var tail := if trailing then [""] else [];
    SplitText(stack);
    SplitAppend(Text(stack), "");
    assert Text(stack) + "/" + "" == Text(stack) + "/" && stack + [] == stack;
    assert [""] + stack + [""] == [""] + (stack + [""]);
    ResolveCons([], "", stack + tail);
    PushEmpty();
    ResolveKept([], stack, tail);
    assert [] + stack == stack;
  }

  lemma PushEmpty()
    ensures Push([], "") == []
  {
  }

  lemma CleanTwice(stack: seq<string>, trailing: bool)
    requires AllKept(stack) && stack != []
    ensures var c := if trailing then Text(stack) + "/" else Text(stack);
            Clean(c) == c
  {
    ReadBack(stack, trailing);
    TextLength(stack);
    LastElement(stack);
    assert Kept(Last(stack));
    hide Split, Resolve, Text, AllKept;
    var c := if trailing then Text(stack) + "/" else Text(stack);
    assert Trailing(c) == trailing;
  }
}
