/**
 The meaning of a route pattern, independent of any tree: which request paths it matches
 and which parameters it yields.  Strings are byte strings; only '/', ':' and '*' are special.
 */
module RoutePattern {
  import opened Common

  datatype Param = Param(key: string, value: string)

  predicate IsWild(c: char) {
    c == ':' || c == '*'
  }

  predicate NoWild(s: string) {
    forall k :: 0 <= k < |s| ==> !IsWild(s[k])
  }

  /** The number of bytes before the first '/', or the whole length. */
  function SegmentEnd(s: string): (e: nat)
    ensures e <= |s|
    ensures forall k :: 0 <= k < e ==> s[k] != '/'
    ensures e < |s| ==> s[e] == '/'
  {
    if s == "" || s[0] == '/' then 0 else
      var e := SegmentEnd(s[1..]);
      assert forall k :: 1 <= k < e + 1 ==> s[k] == s[1..][k - 1];
      1 + e
  }

  /** The number of wildcard characters of a pattern. */
  function CountWild(s: string): nat {
    if s == "" then 0 else (if IsWild(s[0]) then 1 else 0) + CountWild(s[1..])
  }

  // A slash and a catch-all "*name" that runs to the end of the string.
  predicate FinalCatchAll(s: string) {
    |s| >= 2 && s[0] == '/' && s[1] == '*' && SegmentEnd(s[2..]) == |s| - 2
  }

  /**
   The parameters with which pattern `pat` matches `path`, or None.
   A ":name" matches the bytes up to the next '/'; it may match nothing, but only in front of a '/'.
   A "*name" matches everything from the '/' before it on, and only as the last segment of the pattern.
   */
  function Match(pat: string, path: string): Option<seq<Param>>
    decreases |pat|
  {
    if pat == "" then
      if path == "" then Some([]) else None
    else if path == "" then
      None
    else if pat[0] == ':' then
      var name := 1 + SegmentEnd(pat[1..]);
      var end := SegmentEnd(path);
      (match Match(pat[name..], path[end..])
       case None => None
       case Some(ps) => Some([Param(pat[1..name], path[..end])] + ps))
    else if |pat| >= 2 && pat[0] == '/' && pat[1] == '*' then
      if FinalCatchAll(pat) && path[0] == '/' then Some([Param(pat[2..], path)]) else None
    else if pat[0] == path[0] then
      Match(pat[1..], path[1..])
    else
      None
  }

  /** No catch-all segment is followed by another segment. */
  predicate CatchAllIsLast(pat: string)
    decreases |pat|
  {
    pat == ""
    || (if |pat| >= 2 && pat[0] == '/' && pat[1] == '*' then FinalCatchAll(pat)
        else CatchAllIsLast(pat[1..]))
  }

  lemma {:induction false} CountWildConcat(a: string, b: string)
    ensures CountWild(a + b) == CountWild(a) + CountWild(b)
  {
    if a == "" {
      assert a + b == b;
    } else {
      assert (a + b)[1..] == a[1..] + b;
      CountWildConcat(a[1..], b);
    }
  }

  lemma {:induction false} CountWildZero(s: string)
    ensures CountWild(s) == 0 <==> NoWild(s)
  {
    if s != "" {
      CountWildZero(s[1..]);
      assert forall k :: 1 <= k < |s| ==> s[k] == s[1..][k - 1];
      assert forall k :: 0 <= k < |s[1..]| ==> s[1..][k] == s[k + 1];
    }
  }

  /** A literal prefix of a pattern is simply stripped from the path. */
  lemma {:induction false} MatchLiteral(u: string, s: string, path: string)
    requires NoWild(u)
    requires s == "" || s[0] != '*'
    ensures u <= path ==> Match(u + s, path) == Match(s, path[|u|..])
    ensures !(u <= path) ==> Match(u + s, path) == None
  {
    if u == "" {
      assert u + s == s;
      assert path[0..] == path;
    } else {
      var pat := u + s;
      assert pat[0] == u[0] && pat[1..] == u[1..] + s;
      assert |pat| >= 2 ==> pat[1] != '*' by {
        if |u| == 1 && s != "" { assert pat[1] == s[0]; }
      }
      if path != "" && path[0] == u[0] {
        MatchLiteral(u[1..], s, path[1..]);
        assert u <= path <==> u[1..] <= path[1..];
        if u <= path { assert path[1..][|u[1..]|..] == path[|u|..]; }
      }
    }
  }

  /** A named parameter takes the bytes up to the next '/'. */
  lemma MatchParam(w: string, s: string, path: string)
    requires |w| >= 1 && w[0] == ':' && '/' !in w[1..]
    requires s == "" || s[0] == '/'
    requires path != ""
    ensures var end := SegmentEnd(path);
            Match(w + s, path) ==
              (match Match(s, path[end..])
               case None => None
               case Some(ps) => Some([Param(w[1..], path[..end])] + ps))
  {
    var pat := w + s;
    SegmentEndConcat(w[1..], s);
    assert pat[1..] == w[1..] + s;
    assert pat[|w|..] == s;
    assert pat[1..|w|] == w[1..];
  }

  lemma {:induction false} SegmentEndConcat(a: string, s: string)
    requires '/' !in a
    requires s == "" || s[0] == '/'
    ensures SegmentEnd(a + s) == |a|
  {
    if a == "" {
      assert a + s == s;
    } else {
      assert (a + s)[1..] == a[1..] + s;
      SegmentEndConcat(a[1..], s);
    }
  }

  /** A request path that a given pattern matches: every parameter takes the value "x". */
  function Witness(pat: string): string
    decreases |pat|
  {
    if pat == "" then ""
    else if pat[0] == ':' then "x" + Witness(pat[1 + SegmentEnd(pat[1..])..])
    else if |pat| >= 2 && pat[0] == '/' && pat[1] == '*' then "/"
    else [pat[0]] + Witness(pat[1..])
  }

  lemma {:induction false} MatchNeedsCatchAllLast(pat: string, path: string)
    requires Match(pat, path).Some?
    ensures CatchAllIsLast(pat)
    decreases |pat|
  {
    if pat == "" {
    } else if pat[0] == ':' {
      var name := 1 + SegmentEnd(pat[1..]);
      MatchNeedsCatchAllLast(pat[name..], path[SegmentEnd(path)..]);
      CatchAllIsLastSkip(pat, name);
    } else if |pat| >= 2 && pat[0] == '/' && pat[1] == '*' {
    } else {
      MatchNeedsCatchAllLast(pat[1..], path[1..]);
    }
  }

  /** Bytes other than '/' never start a catch-all segment, so they can be skipped. */
  lemma {:induction false} CatchAllIsLastSkip(pat: string, k: nat)
    requires k <= |pat| && forall j :: 0 <= j < k ==> pat[j] != '/'
    ensures CatchAllIsLast(pat) == CatchAllIsLast(pat[k..])
  {
    if k == 0 {
      assert pat[0..] == pat;
    } else {
      CatchAllIsLastSkip(pat[1..], k - 1);
      assert pat[1..][k - 1..] == pat[k..];
    }
  }

  lemma {:induction false} WitnessMatches(pat: string)
    requires CatchAllIsLast(pat)
    requires pat == "" || pat[0] != '*'
    requires forall k :: 0 < k < |pat| && pat[k] == '*' ==> pat[k - 1] == '/'
    ensures Match(pat, Witness(pat)).Some?
    decreases |pat|
  {
    if pat == "" {
    } else if pat[0] == ':' {
      var name := 1 + SegmentEnd(pat[1..]);
      var rest := pat[name..];
      assert forall k :: 0 <= k < |rest| ==> rest[k] == pat[name + k];
      assert forall j :: 1 <= j < name ==> pat[j] == pat[1..][j - 1];
      CatchAllIsLastSkip(pat, name);
      assert rest != "" ==> rest[0] == pat[1..][name - 1];
      WitnessMatches(rest);
      assert rest != "" ==> Witness(rest)[0] == '/';
      var path := Witness(pat);
      assert path == "x" + Witness(rest);
      SegmentEndConcat("x", Witness(rest));
      assert path[1..] == Witness(rest);
    } else if |pat| >= 2 && pat[0] == '/' && pat[1] == '*' {
    } else {
      assert forall k :: 0 <= k < |pat[1..]| ==> pat[1..][k] == pat[k + 1];
      WitnessMatches(pat[1..]);
      assert Witness(pat)[1..] == Witness(pat[1..]);
    }
  }
}
