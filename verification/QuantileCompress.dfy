/**
 What compress does to the samples: it joins neighbours and nothing else, and it leaves none that could still be joined.
 And why the rank bounds need an error that wanes: for an error that grows with the rank they fail.
 */
module QuantileCompress {
  import opened Common
  import opened QuantileSummary
  import opened QuantileRank

  /** Each sample of `m` stands for some neighbours in `l`: it is the last of them, with their widths added up. */
  ghost predicate Joins(l: seq<Sample>, m: seq<Sample>)
    decreases |m|
  {
    if m == [] then l == []
    else exists k: nat :: k < |l| && JoinsLast(l, m, k) && Joins(l[..k], m[..|m| - 1])
  }

  predicate JoinsLast(l: seq<Sample>, m: seq<Sample>, k: nat)
    requires m != [] && k < |l|
  {
    m[|m| - 1] == l[|l| - 1].(width := SumWidths(l[k..]))
  }

  lemma {:induction false} JoinsItself(l: seq<Sample>)
    ensures Joins(l, l)
    decreases |l|
  {
    if l != [] {
      var k: nat := |l| - 1;
      JoinsItself(l[..k]);
      SumTwo(l[k], l[k]);
      assert l[k..] == [l[k]];
      assert JoinsLast(l, l, k);
    }
  }

  /** Joining once more. */
  lemma {:induction false} JoinsMore(l: seq<Sample>, m: seq<Sample>, i: nat)
    requires Joins(l, m) && i + 1 < |m|
    ensures Joins(l, Absorb(m, i))
    decreases |m|
  {
    hide SumWidths;
    var n, a := m[..|m| - 1], Absorb(m, i);
    var k: nat :| k < |l| && JoinsLast(l, m, k) && Joins(l[..k], n);
    if i + 2 < |m| {
      JoinsMore(l[..k], n, i);
      assert a[..|a| - 1] == Absorb(n, i);
      assert JoinsLast(l, a, k);
    } else {
      var j: nat :| j < k && JoinsLast(l[..k], n, j) && Joins(l[..k][..j], n[..|n| - 1]);
      assert l[..k][..j] == l[..j] && a[..|a| - 1] == n[..|n| - 1];
      assert l[j..] == l[..k][j..] + l[k..];
      SumConcat(l[..k][j..], l[k..]);
      assert JoinsLast(l, a, j);
    }
  }

  lemma {:induction false} CompressDownJoins(f: ErrorFn, l: seq<Sample>, s: Summary, k: nat, r: int)
    requires Joins(l, s.l) && k < |s.l|
    ensures Joins(l, CompressDown(f, s, k, r).l)
    decreases k
  {
    hide Joins, Absorb, Mergeable;
    if k > 0 {
      if Mergeable(f, s, k, r) { JoinsMore(l, s.l, k - 1); }
      CompressDownJoins(f, l, CompressAt(f, s, k, r), k - 1, r - s.l[k - 1].width);
    }
  }

  /** For every error function: compress only joins neighbours. */
  lemma CompressJoins(f: ErrorFn, s: Summary)
    ensures Joins(s.l, Compress(f, s).l) && Compress(f, s).n == s.n
  {
    hide Joins;
    JoinsItself(s.l);
    if |s.l| >= 2 { CompressDownJoins(f, s.l, s, |s.l| - 1, s.n - 1 - s.l[|s.l| - 1].width); }
  }

  // ---------------------------------------------------------------- nothing is left to join

  /** The error depends on the number of observations and the rank only, as all error functions of the package do. */
  ghost predicate CountsOnly(f: ErrorFn) {
    forall s: Summary, t: Summary, r: int :: s.n == t.n ==> f(s, r) == f(t, r)
  }

  /** Behind position `k`, two neighbours together exceed the error allowed in front of the second. */
  ghost predicate TightFrom(f: ErrorFn, s: Summary, k: int) {
    forall j :: k < j < |s.l| && 0 < j ==> !Mergeable(f, s, j, SumWidths(s.l[..j]) - 1)
  }

  lemma AbsorbTight(f: ErrorFn, s: Summary, k: nat)
    requires CountsOnly(f) && TightFrom(f, s, k) && 0 < k < |s.l|
    ensures TightFrom(f, s.(l := Absorb(s.l, k - 1)), k - 1)
  {
    hide SumWidths, CountsOnly, Mergeable;
    var t := s.(l := Absorb(s.l, k - 1));
    forall j | k - 1 < j < |t.l| && 0 < j ensures !Mergeable(f, t, j, SumWidths(t.l[..j]) - 1) {
      AbsorbPrefix(s.l, k - 1, j);
      StillTight(f, s, t, j, SumWidths(t.l[..j]) - 1);
    }
  }

  lemma StillTight(f: ErrorFn, s: Summary, t: Summary, j: nat, r: int)
    requires CountsOnly(f) && s.n == t.n && 0 < j < |t.l| && j + 1 < |s.l| && !Mergeable(f, s, j + 1, r)
    requires t.l[j] == s.l[j + 1] && t.l[j - 1].width >= s.l[j].width
    ensures !Mergeable(f, t, j, r)
  {
  }

  lemma {:induction false} CompressDownTight(f: ErrorFn, s: Summary, k: nat, r: int)
    requires CountsOnly(f) && TightFrom(f, s, k) && k < |s.l| && r == SumWidths(s.l[..k]) - 1
    ensures TightFrom(f, CompressDown(f, s, k, r), 0)
    decreases k
  {
    hide CountsOnly, SumWidths, TightFrom, CompressAt;
    if k > 0 {
      CompressAtTight(f, s, k, r);
      CompressDownTight(f, CompressAt(f, s, k, r), k - 1, r - s.l[k - 1].width);
    }
  }

  lemma CompressAtTight(f: ErrorFn, s: Summary, k: nat, r: int)
    requires CountsOnly(f) && TightFrom(f, s, k) && 0 < k < |s.l| && r == SumWidths(s.l[..k]) - 1
    ensures var t := CompressAt(f, s, k, r);
            TightFrom(f, t, k - 1) && r - s.l[k - 1].width == SumWidths(t.l[..k - 1]) - 1
  {
    hide CountsOnly, SumWidths, Absorb, Mergeable;
    SumOneMore(s.l, k - 1);
    if Mergeable(f, s, k, r) {
      AbsorbTight(f, s, k);
      AbsorbPrefix(s.l, k - 1, k - 1);
    }
  }

  /** After compress no two neighbours could be joined: what they cover together is more than the error allows. */
  lemma CompressIsTight(f: ErrorFn, s: Summary)
    requires CountsOnly(f) && SumWidths(s.l) == s.n
    ensures TightFrom(f, Compress(f, s), 0)
  {
    hide CountsOnly, CompressDown, SumWidths;
    if |s.l| >= 2 {
      SumOneMore(s.l, |s.l| - 1);
      assert s.l[..|s.l| - 1 + 1] == s.l;
      CompressDownTight(f, s, |s.l| - 1, s.n - 1 - s.l[|s.l| - 1].width);
    }
  }

  // ---------------------------------------------------------------- an error that grows with the rank

  function One(v: real): Sample {
    Sample(v, 1, 0.0)
  }

  /** The error function for low quantiles with an epsilon of one half. */
  const Growing: ErrorFn := (s: Summary, r: int) => r as real

  lemma AppendOne(f: ErrorFn, c: Cursor, v: real)
    requires c.i == |c.s.l| && c.r == c.s.n
    ensures MergeOne(f, c, One(v)) == Cursor(Summary(c.s.n + 1, c.s.l + [One(v)]), c.i + 1, c.r + 1)
  {
  }

  /** The first batch: 1, 2, 3, 4. */
  lemma FirstBatch()
    ensures Merge(Growing, Summary(0, []), [One(1.0), One(2.0), One(3.0), One(4.0)]) ==
            Summary(4, [One(1.0), One(2.0), Sample(4.0, 2, 0.0)])
  {
    var f := Growing;
    var xs := [One(1.0), One(2.0), One(3.0), One(4.0)];
    var c0 := Cursor(Summary(0, []), 0, 0);
    AppendOne(f, c0, 1.0);
    var c1 := MergeOne(f, c0, xs[0]);
    AppendOne(f, c1, 2.0);
    var c2 := MergeOne(f, c1, xs[1]);
    AppendOne(f, c2, 3.0);
    var c3 := MergeOne(f, c2, xs[2]);
    AppendOne(f, c3, 4.0);
    assert xs[1..][1..] == xs[2..] && xs[2..][1..] == xs[3..] && xs[3..][1..] == [];
    var s := Summary(4, xs);
    assert MergeAll(f, c0, xs).s == s;
    var t := CompressAt(f, s, 3, 2);
    assert t == s.(l := [One(1.0), One(2.0), Sample(4.0, 2, 0.0)]);
    assert CompressAt(f, t, 2, 1) == t;
    assert CompressAt(f, t, 1, 0) == t;
  }

  /** The second: 6. */
  lemma SecondBatch()
    ensures Merge(Growing, Summary(4, [One(1.0), One(2.0), Sample(4.0, 2, 0.0)]), [One(6.0)]) ==
            Summary(5, [One(1.0), One(2.0), Sample(6.0, 3, 0.0)])
  {
    var f := Growing;
    var l := [One(1.0), One(2.0), Sample(4.0, 2, 0.0)];
    var c := Cursor(Summary(4, l), 0, 0);
    assert SkipTo(l, 2, 2, 6.0) == SkipTo(l, 3, 4, 6.0) == (3, 4);
    var d := MergeOne(f, c, One(6.0));
    assert d.s == Summary(5, l + [One(6.0)]);
    assert [One(6.0)][1..] == [];
    assert MergeAll(f, c, [One(6.0)]).s == d.s;
    var t := CompressAt(f, d.s, 3, 3);
    assert t == Summary(5, [One(1.0), One(2.0), Sample(6.0, 3, 0.0)]);
    assert CompressAt(f, t, 2, 1) == t;
    assert CompressAt(f, t, 1, 0) == t;
  }

  /** The third: 5, 7, 8.  The new 5 is given the delta 1. */
  lemma ThirdBatch()
    ensures Merge(Growing, Summary(5, [One(1.0), One(2.0), Sample(6.0, 3, 0.0)]), [One(5.0), One(7.0), One(8.0)]) ==
            Summary(8, [One(1.0), One(2.0), Sample(5.0, 1, 1.0), Sample(8.0, 5, 0.0)])
  {
    var f := Growing;
    var l := [One(1.0), One(2.0), Sample(6.0, 3, 0.0)];
    var xs := [One(5.0), One(7.0), One(8.0)];
    var five := Sample(5.0, 1, 1.0);
    var c0 := Cursor(Summary(5, l), 0, 0);
    assert SkipTo(l, 1, 1, 5.0) == SkipTo(l, 2, 2, 5.0) == (2, 2);
    var c1 := MergeOne(f, c0, xs[0]);
    var m := [One(1.0), One(2.0), five, Sample(6.0, 3, 0.0)];
    assert c1 == Cursor(Summary(6, m), 3, 3);
    assert SkipTo(m, 3, 3, 7.0) == SkipTo(m, 4, 6, 7.0) == (4, 6);
    var c2 := MergeOne(f, c1, xs[1]);
    assert c2 == Cursor(Summary(7, m + [One(7.0)]), 5, 7);
    AppendOne(f, c2, 8.0);
    assert xs[1..][1..] == xs[2..] && xs[2..][1..] == [];
    var s := Summary(8, m + [One(7.0), One(8.0)]);
    assert MergeAll(f, c0, xs).s == s;
    var t := CompressAt(f, s, 5, 6);
    assert t == s.(l := m + [Sample(8.0, 2, 0.0)]);
    var u := CompressAt(f, t, 4, 5);
    assert u == Summary(8, [One(1.0), One(2.0), five, Sample(8.0, 5, 0.0)]);
    assert CompressAt(f, u, 3, 2) == u;
    assert CompressAt(f, u, 2, 1) == u;
    assert CompressAt(f, u, 1, 0) == u;
  }

  /** The fifth of eight observations is left with an upper bound of four for its rank. */
  lemma GrowingErrorFails()
    ensures var f := Growing;
            var s1 := Merge(f, Summary(0, []), [One(1.0), One(2.0), One(3.0), One(4.0)]);
            var s := Merge(f, Merge(f, s1, [One(6.0)]), [One(5.0), One(7.0), One(8.0)]);
            var obs := [1.0, 2.0, 3.0, 4.0, 6.0, 5.0, 7.0, 8.0];
            && |s.l| > 2 && CountBelow(obs, s.l[2].value) == 4 && !Ranked(f, s, obs)
            && SumWidths(s.l[..3]) as real + s.l[2].delta == 4.0
  {
    hide Merge;
    FirstBatch();
    SecondBatch();
    ThirdBatch();
    var l := [One(1.0), One(2.0), Sample(5.0, 1, 1.0), Sample(8.0, 5, 0.0)];
    FourBelowFive();
    assert l[..2] == [One(1.0), One(2.0)] && l[..3] == [One(1.0), One(2.0)] + [l[2]];
    SumTwo(l[0], l[1]);
    SumOneMore(l, 2);
    assert !RankedAt(Growing, Summary(8, l), 4, 2, l[2]);
  }

  lemma FourBelowFive()
    ensures CountBelow([1.0, 2.0, 3.0, 4.0, 6.0, 5.0, 7.0, 8.0], 5.0) == 4
  {
    hide CountBelow;
    var obs := [1.0, 2.0, 3.0, 4.0, 6.0, 5.0, 7.0, 8.0];
    BelowNext(obs, 0, 5.0);
    BelowNext(obs, 1, 5.0);
    BelowNext(obs, 2, 5.0);
    BelowNext(obs, 3, 5.0);
    BelowNext(obs, 4, 5.0);
    BelowNext(obs, 5, 5.0);
    BelowNext(obs, 6, 5.0);
    BelowNext(obs, 7, 5.0);
    assert obs[..0] == [] && obs[..8] == obs;
  }

  lemma BelowNext(obs: seq<real>, k: nat, v: real)
    requires k < |obs|
    ensures CountBelow([], v) == 0
    ensures CountBelow(obs[..k + 1], v) == CountBelow(obs[..k], v) + (if obs[k] < v then 1 else 0)
  {
    assert obs[..k + 1][..k] == obs[..k];
  }
}
