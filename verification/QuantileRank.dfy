/**
 Upper bounds for ranks.  For an error function that only depends on the number of observations and wanes with the
 rank, as the one for high quantiles does, every sample's width and delta bound its rank from above, and stay within
 the error.
 */
module QuantileRank {
  import opened Common
  import opened QuantileSummary

  /** The error depends on the number of observations and the rank, grows with the first and wanes with the second. */
  ghost predicate Waning(f: ErrorFn) {
    && (forall s: Summary, t: Summary, r: int :: s.n <= t.n ==> f(s, r) <= f(t, r))
    && (forall s: Summary, r: int, k: int :: r <= k ==> f(s, k) <= f(s, r))
    && (forall s: Summary, t: Summary, r: int :: t.n == s.n + 1 ==> f(s, r) <= f(t, r + 1))
  }

  /** The error function for high quantiles: relative to the distance from the top. */
  function HighBiased(epsilon: real): ErrorFn {
    (s: Summary, r: int) => Scaled(2.0 * epsilon, s.n - r)
  }

  function Scaled(e: real, x: int): real {
    e * x as real
  }

  lemma ScaledGrows(e: real, x: int, y: int)
    requires e >= 0.0 && x <= y
    ensures Scaled(e, x) <= Scaled(e, y)
  {
    assert e * (y - x) as real == e * y as real - e * x as real;
    assert e * (y - x) as real >= 0.0;
  }

  lemma HighBiasedWanes(epsilon: real)
    requires epsilon >= 0.0
    ensures Waning(HighBiased(epsilon))
  {
    hide Scaled;
    var e := 2.0 * epsilon;
    forall x: int, y: int | x <= y ensures Scaled(e, x) <= Scaled(e, y) {
      ScaledGrows(e, x, y);
    }
  }

  predicate Whole(x: real) {
    x == x.Floor as real
  }

  /** The rank of a sample is at most the widths up to it and its delta, and both lie within the error. */
  predicate RankedAt(f: ErrorFn, s: Summary, below: nat, before: nat, x: Sample) {
    && x.width >= 1 && x.delta >= 0.0 && Whole(x.delta)
    && (below + 1) as real <= (before + x.width) as real + x.delta
    && x.width as real + x.delta <= MaxReal(1.0, f(s, before))
  }

  ghost predicate Ranked(f: ErrorFn, s: Summary, obs: seq<real>) {
    forall i :: 0 <= i < |s.l| ==> RankedAt(f, s, CountBelow(obs, s.l[i].value), SumWidths(s.l[..i]), s.l[i])
  }

  // ---------------------------------------------------------------- merging

  lemma BelowOneMore(obs: seq<real>, o: real, v: real)
    ensures CountBelow(obs + [o], v) == CountBelow(obs, v) + (if o < v then 1 else 0)
  {
    assert (obs + [o])[..|obs|] == obs;
  }

  lemma {:induction false} BelowMonotone(obs: seq<real>, v: real, w: real)
    requires v <= w
    ensures CountBelow(obs, v) <= CountBelow(obs, w) && CountBelow(obs, v) <= |obs|
  {
    if obs != [] { BelowMonotone(obs[..|obs| - 1], v, w); }
  }

  /** The rank that merging carries is the sum of the widths in front of the cursor. */
  predicate InStep(c: Cursor) {
    c.i <= |c.s.l| && c.r == SumWidths(c.s.l[..c.i])
  }

  lemma {:induction false} SkipToSums(l: seq<Sample>, i: nat, r: int, v: real)
    requires i <= |l| && r == SumWidths(l[..i])
    ensures var (p, q) := SkipTo(l, i, r, v); q == SumWidths(l[..p])
    decreases |l| - i
  {
    hide SumWidths;
    if i < |l| && l[i].value <= v {
      SumOneMore(l, i);
      SkipToSums(l, i + 1, r + l[i].width, v);
    }
  }

  /** A sample in front of the new one: nothing changes but the number of observations. */
  lemma InFront(f: ErrorFn, s: Summary, t: Summary, below: nat, before: nat, x: Sample)
    requires Waning(f) && t.n == s.n + 1 && RankedAt(f, s, below, before, x)
    ensures RankedAt(f, t, below, before, x)
  {
  }

  /** A sample behind the new one: one more observation is below it. */
  lemma Behind(f: ErrorFn, s: Summary, t: Summary, below: nat, before: nat, x: Sample)
    requires Waning(f) && t.n == s.n + 1 && RankedAt(f, s, below, before, x)
    ensures RankedAt(f, t, below + 1, before + 1, x)
  {
    assert f(s, before) <= f(t, before + 1);
  }

  /** The new sample: its delta makes room for all that might be below the sample behind it. */
  lemma NewInside(f: ErrorFn, s: Summary, g: Summary, t: Summary, below: nat, belowNext: nat, before: nat, next: Sample,
                  y: Sample)
    requires Waning(f) && g.n == s.n && t.n == s.n + 1 && below <= belowNext
    requires RankedAt(f, s, belowNext, before, next)
    requires y.width == 1 && y.delta == MaxReal(0.0, FloorMinusOne(f(g, before)))
    ensures RankedAt(f, t, below, before, y)
  {
    hide FloorMinusOne, MaxReal, Whole;
    assert f(g, before) == f(s, before) <= f(t, before);
    FloorRoom(next.width, next.delta, f(s, before), f(t, before));
  }

  lemma FloorRoom(w: nat, delta: real, e: real, later: real)
    requires w >= 1 && delta >= 0.0 && Whole(delta) && w as real + delta <= MaxReal(1.0, e) && e <= later
    ensures var d := MaxReal(0.0, FloorMinusOne(e));
            d >= 0.0 && Whole(d) && w as real + delta <= 1.0 + d <= MaxReal(1.0, later)
  {
    var k, m := delta.Floor, e.Floor;
    assert delta == k as real && 0 <= k;
    WholeRoom(w, k, e, m);
    assert FloorMinusOne(e) == (m - 1) as real;
  }

  lemma WholeRoom(w: nat, k: nat, e: real, m: int)
    requires w >= 1 && m as real <= e < m as real + 1.0 && (w + k) as real <= MaxReal(1.0, e)
    ensures w + k <= 1 || w + k <= m
  {
  }

  lemma NewAtEnd(f: ErrorFn, t: Summary, below: nat, before: nat, y: Sample)
    requires below <= before && y.width == 1 && y.delta == 0.0
    ensures RankedAt(f, t, below, before, y)
  {
  }

  /** One more observation of width 1, with the delta that merging gives it. */
  lemma MergeOneRanked(f: ErrorFn, c: Cursor, x: Sample, obs: seq<real>)
    requires Waning(f) && InStep(c) && Summarizes(c.s, obs) && Ranked(f, c.s, obs) && x.width == 1 && x.delta == 0.0
    requires forall k :: 0 <= k < c.i ==> c.s.l[k].value <= x.value
    ensures var d := MergeOne(f, c, x); Ranked(f, d.s, obs + [x.value]) && InStep(d)
  {
    hide SumWidths, CountBelow, RankedAt, Waning, Sorted, WidthUpTo, CountUpTo, SkipTo;
    var s, d := c.s, MergeOne(f, c, x);
    var (p, r) := SkipTo(s.l, c.i, c.r, x.value);
    MergeOneInserts(f, c, x);
    SkipToStops(s.l, c.i, c.r, x.value);
    SkipToSums(s.l, c.i, c.r, x.value);
    forall i | 0 <= i < |d.s.l|
      ensures RankedAt(f, d.s, CountBelow(obs + [x.value], d.s.l[i].value), SumWidths(d.s.l[..i]), d.s.l[i])
    {
      if i == p {
        BelowOneMore(obs, x.value, x.value);
        assert d.s.l[..p] == s.l[..p];
        NewRanked(f, c, x, obs);
      } else {
        OthersRanked(f, s, d.s, p, i, obs);
      }
    }
    assert d.s.l[..p] == s.l[..p];
    SumOneMore(d.s.l, p);
  }

  /** The samples in front of the new one and behind it. */
  lemma OthersRanked(f: ErrorFn, s: Summary, t: Summary, p: nat, i: nat, obs: seq<real>)
    requires Waning(f) && Ranked(f, s, obs) && p <= |s.l| && p < |t.l| && i < |t.l| && i != p
    requires t.n == s.n + 1 && t.l == s.l[..p] + [t.l[p]] + s.l[p..] && t.l[p].width == 1
    requires forall k :: 0 <= k < p ==> s.l[k].value <= t.l[p].value
    requires forall k :: p <= k < |s.l| ==> s.l[k].value > t.l[p].value
    ensures RankedAt(f, t, CountBelow(obs + [t.l[p].value], t.l[i].value), SumWidths(t.l[..i]), t.l[i])
  {
    hide SumWidths, CountBelow, RankedAt, Waning;
    BelowOneMore(obs, t.l[p].value, t.l[i].value);
    if i < p {
      assert t.l[i] == s.l[i] && t.l[..i] == s.l[..i];
      InFront(f, s, t, CountBelow(obs, t.l[i].value), SumWidths(t.l[..i]), t.l[i]);
    } else {
      assert t.l[i] == s.l[i - 1];
      PrefixWithNew(s.l, t.l, p, i);
      Behind(f, s, t, CountBelow(obs, t.l[i].value), SumWidths(s.l[..i - 1]), t.l[i]);
    }
  }

  lemma PrefixWithNew(l: seq<Sample>, m: seq<Sample>, p: nat, i: nat)
    requires p < i < |m| && p <= |l| && m[p].width == 1 && m == l[..p] + [m[p]] + l[p..]
    ensures SumWidths(m[..i]) == SumWidths(l[..i - 1]) + 1
  {
    var a, b := l[..p], l[p..i - 1];
    assert m[..i] == a + [m[p]] + b && l[..i - 1] == a + b;
    InsertWidths(a, m[p], b, 0.0);
  }

  lemma NewRanked(f: ErrorFn, c: Cursor, x: Sample, obs: seq<real>)
    requires Waning(f) && InStep(c) && Summarizes(c.s, obs) && Ranked(f, c.s, obs) && x.width == 1 && x.delta == 0.0
    requires forall k :: 0 <= k < c.i ==> c.s.l[k].value <= x.value
    ensures var (p, r) := SkipTo(c.s.l, c.i, c.r, x.value);
            var d := MergeOne(f, c, x);
            RankedAt(f, d.s, CountBelow(obs, x.value), SumWidths(c.s.l[..p]), d.s.l[p])
  {
    hide SumWidths, CountBelow, RankedAt, Waning, Sorted, WidthUpTo, CountUpTo, SkipTo;
    var s, d := c.s, MergeOne(f, c, x);
    var (p, r) := SkipTo(s.l, c.i, c.r, x.value);
    SkipToStops(s.l, c.i, c.r, x.value);
    SkipToSums(s.l, c.i, c.r, x.value);
    BelowMonotone(obs, x.value, x.value);
    if p < |s.l| {
      var next := s.l[p];
      BelowMonotone(obs, x.value, next.value);
      NewInside(f, s, s.(l := Gap(s.l, p)), d.s, CountBelow(obs, x.value), CountBelow(obs, next.value),
                SumWidths(s.l[..p]), next, d.s.l[p]);
    } else {
      assert s.l[..p] == s.l;
      NewAtEnd(f, d.s, CountBelow(obs, x.value), SumWidths(s.l[..p]), d.s.l[p]);
    }
  }

  /** A whole batch. */
  lemma {:induction false} MergeAllRanked(f: ErrorFn, c: Cursor, xs: seq<Sample>, obs: seq<real>)
    requires Waning(f) && InStep(c) && Summarizes(c.s, obs) && Ranked(f, c.s, obs) && Sorted(xs)
    requires forall k :: 0 <= k < |xs| ==> xs[k].width == 1 && xs[k].delta == 0.0
    requires xs != [] ==> forall k :: 0 <= k < c.i ==> c.s.l[k].value <= xs[0].value
    ensures Ranked(f, MergeAll(f, c, xs).s, obs + Values(xs))
    decreases |xs|
  {
    hide MergeOne, Summarizes, Ranked, Waning, SumWidths;
    if xs == [] {
      assert obs + Values(xs) == obs;
    } else {
      MergeOneRanked(f, c, xs[0], obs);
      MergeOneSummarizes(f, c, xs[0], obs);
      var ys := xs[1..];
      MergeAllRanked(f, MergeOne(f, c, xs[0]), ys, obs + [xs[0].value]);
      assert obs + [xs[0].value] + Values(ys) == obs + Values(xs);
    }
  }

  // ---------------------------------------------------------------- compressing

  lemma AbsorbPrefix(l: seq<Sample>, i: nat, j: nat)
    requires i + 1 < |l| && j < |l|
    ensures SumWidths(Absorb(l, i)[..j]) == SumWidths(l[..if j <= i then j else j + 1])
  {
    hide SumWidths;
    var y := l[i + 1].(width := l[i + 1].width + l[i].width);
    if j <= i {
      assert Absorb(l, i)[..j] == l[..j];
    } else {
      var b := l[i + 2..j + 1];
      assert Absorb(l, i)[..j] == l[..i] + ([y] + b);
      assert l[..j + 1] == l[..i] + ([l[i], l[i + 1]] + b);
      SumConcat(l[..i], [y] + b);
      SumConcat([y], b);
      SumConcat(l[..i], [l[i], l[i + 1]] + b);
      SumConcat([l[i], l[i + 1]], b);
      SumTwo(l[i], l[i + 1]);
      SumTwo(y, y);
    }
  }

  /** The sample that takes over the width of its left neighbour keeps its upper bound, and stays within the error. */
  lemma AbsorbRanked(f: ErrorFn, s: Summary, k: nat, r: int, obs: seq<real>)
    requires Waning(f) && Ranked(f, s, obs) && 0 < k < |s.l| && r == SumWidths(s.l[..k]) - 1 && Mergeable(f, s, k, r)
    ensures Ranked(f, s.(l := Absorb(s.l, k - 1)), obs)
  {
    hide SumWidths, CountBelow, RankedAt, Waning, Mergeable;
    var l, t := s.l, s.(l := Absorb(s.l, k - 1));
    forall j | 0 <= j < |t.l|
      ensures RankedAt(f, t, CountBelow(obs, t.l[j].value), SumWidths(t.l[..j]), t.l[j])
    {
      AbsorbPrefix(l, k - 1, j);
      if j < k - 1 {
        assert t.l[j] == l[j];
        SameError(f, s, t, CountBelow(obs, l[j].value), SumWidths(l[..j]), l[j]);
      } else if j > k - 1 {
        assert t.l[j] == l[j + 1];
        SameError(f, s, t, CountBelow(obs, l[j + 1].value), SumWidths(l[..j + 1]), l[j + 1]);
      } else {
        SumOneMore(l, k - 1);
        SomeWidth(f, s, CountBelow(obs, l[k - 1].value), SumWidths(l[..k - 1]), l[k - 1]);
        Widened(f, s, t, k, r, CountBelow(obs, l[k].value), SumWidths(l[..k - 1]));
      }
    }
  }

  lemma SameError(f: ErrorFn, s: Summary, t: Summary, below: nat, before: nat, x: Sample)
    requires Waning(f) && s.n == t.n && RankedAt(f, s, below, before, x)
    ensures RankedAt(f, t, below, before, x)
  {
  }

  lemma SomeWidth(f: ErrorFn, s: Summary, below: nat, before: nat, x: Sample)
    requires RankedAt(f, s, below, before, x)
    ensures x.width >= 1
  {
  }

  lemma Widened(f: ErrorFn, s: Summary, t: Summary, k: nat, r: int, below: nat, before: nat)
    requires Waning(f) && s.n == t.n && 0 < k < |s.l| && Mergeable(f, s, k, r)
    requires s.l[k - 1].width >= 1 && r == before + s.l[k - 1].width - 1
    requires RankedAt(f, s, below, before + s.l[k - 1].width, s.l[k])
    ensures RankedAt(f, t, below, before, s.l[k].(width := s.l[k].width + s.l[k - 1].width))
  {
    assert f(s, r) <= f(s, before) <= f(t, before);
  }

  lemma {:induction false} CompressDownRanked(f: ErrorFn, s: Summary, k: nat, r: int, obs: seq<real>)
    requires Waning(f) && Ranked(f, s, obs) && k < |s.l| && r == SumWidths(s.l[..k]) - 1
    ensures Ranked(f, CompressDown(f, s, k, r), obs)
    decreases k
  {
    hide Ranked, Waning, SumWidths, CompressAt;
    if k > 0 {
      CompressAtRanked(f, s, k, r, obs);
      CompressDownRanked(f, CompressAt(f, s, k, r), k - 1, r - s.l[k - 1].width, obs);
    }
  }

  lemma CompressAtRanked(f: ErrorFn, s: Summary, k: nat, r: int, obs: seq<real>)
    requires Waning(f) && Ranked(f, s, obs) && 0 < k < |s.l| && r == SumWidths(s.l[..k]) - 1
    ensures var t := CompressAt(f, s, k, r);
            Ranked(f, t, obs) && r - s.l[k - 1].width == SumWidths(t.l[..k - 1]) - 1
  {
    hide Ranked, Waning, SumWidths, Absorb, Mergeable;
    SumOneMore(s.l, k - 1);
    if Mergeable(f, s, k, r) {
      AbsorbRanked(f, s, k, r, obs);
      AbsorbPrefix(s.l, k - 1, k - 1);
    }
  }

  lemma CompressRanked(f: ErrorFn, s: Summary, obs: seq<real>)
    requires Waning(f) && Ranked(f, s, obs) && Summarizes(s, obs)
    ensures Ranked(f, Compress(f, s), obs)
  {
    hide Ranked, Waning, CompressDown, SumWidths;
    if |s.l| >= 2 {
      SumOneMore(s.l, |s.l| - 1);
      assert s.l[..|s.l| - 1 + 1] == s.l;
      CompressDownRanked(f, s, |s.l| - 1, s.n - 1 - s.l[|s.l| - 1].width, obs);
    }
  }

  /** merge followed by compress, as a flush does. */
  lemma MergeRanked(f: ErrorFn, s: Summary, xs: seq<Sample>, obs: seq<real>)
    requires Waning(f) && Summarizes(s, obs) && Ranked(f, s, obs) && Sorted(xs)
    requires forall k :: 0 <= k < |xs| ==> xs[k].width == 1 && xs[k].delta == 0.0
    ensures Ranked(f, Merge(f, s, xs), obs + Values(xs))
  {
    var c := Cursor(s, 0, 0);
    MergeAllRanked(f, c, xs, obs);
    MergeAllSummarizes(f, c, xs, obs);
    hide Summarizes, Ranked, Waning, MergeAll, Compress;
    CompressRanked(f, MergeAll(f, c, xs).s, obs + Values(xs));
  }

  /** The rank of every sample is at most the widths up to it and its delta. */
  lemma RankUpperBound(f: ErrorFn, s: Summary, obs: seq<real>, i: nat)
    requires Ranked(f, s, obs) && i < |s.l|
    ensures (CountBelow(obs, s.l[i].value) + 1) as real <= SumWidths(s.l[..i + 1]) as real + s.l[i].delta
    ensures s.l[i].width as real + s.l[i].delta <= MaxReal(1.0, f(s, SumWidths(s.l[..i])))
  {
    SumOneMore(s.l, i);
  }
}
