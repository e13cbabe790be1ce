/**
 The compressed summary of beorn7/perks/quantile: a sorted list of weighted samples into which batches are
 merged and which is then compressed.  Values are reals, widths naturals; the error function is arbitrary.
 */
module QuantileSummary {
  import opened Common

  datatype Sample = Sample(value: real, width: nat, delta: real)

  /** The number of observations and the samples kept. */
  datatype Summary = Summary(n: nat, l: seq<Sample>)

  /** The allowed error at a rank; it may read the whole summary. */
  type ErrorFn = (Summary, int) -> real

  predicate Sorted(l: seq<Sample>) {
    forall i, j :: 0 <= i <= j < |l| ==> l[i].value <= l[j].value
  }

  // ---------------------------------------------------------------- merge

  /** The inner loop: the first position from `i` on whose value exceeds `v`, and the widths passed. */
  function SkipTo(l: seq<Sample>, i: nat, r: int, v: real): (res: (nat, int))
    requires i <= |l|
    ensures i <= res.0 <= |l|
    decreases |l| - i
  {
    if i == |l| || l[i].value > v then (i, r) else SkipTo(l, i + 1, r + l[i].width, v)
  }

  function FloorMinusOne(x: real): real {
    x.Floor as real - 1.0
  }

  function MaxReal(a: real, b: real): real {
    if a >= b then a else b
  }

  /** Opens a gap at `i`: the element there stands twice until the new sample is written. */
  function Gap(l: seq<Sample>, i: nat): (r: seq<Sample>)
    requires i < |l|
    ensures |r| == |l| + 1
  {
    l[..i + 1] + l[i..]
  }

  /** Where merging stands: the summary, the next position and the rank before it. */
  datatype Cursor = Cursor(s: Summary, i: nat, r: int)

  function MergeOne(f: ErrorFn, c: Cursor, x: Sample): (d: Cursor)
    requires c.i <= |c.s.l|
    ensures d.i <= |d.s.l| && |d.s.l| == |c.s.l| + 1
  {
    var (i, r) := SkipTo(c.s.l, c.i, c.r, x.value);
    var l := if i < |c.s.l| then
               var g := Gap(c.s.l, i);
               g[i := Sample(x.value, x.width, MaxReal(x.delta, FloorMinusOne(f(c.s.(l := g), r))))]
             else c.s.l + [Sample(x.value, x.width, 0.0)];
    Cursor(Summary(c.s.n + x.width, l), i + 1, r + x.width)
  }

  function MergeAll(f: ErrorFn, c: Cursor, xs: seq<Sample>): Cursor
    requires c.i <= |c.s.l|
    decreases |xs|
  {
    if xs == [] then c else MergeAll(f, MergeOne(f, c, xs[0]), xs[1..])
  }

  // ---------------------------------------------------------------- compress

  /** Merges the sample at `i` into its right neighbour. */
  function Absorb(l: seq<Sample>, i: nat): (r: seq<Sample>)
    requires i + 1 < |l|
    ensures |r| == |l| - 1
  {
    l[..i] + [l[i + 1].(width := l[i + 1].width + l[i].width)] + l[i + 2..]
  }

  /** The error allowed at the rank covers the sample at `k` and the one in front of it together. */
  predicate Mergeable(f: ErrorFn, s: Summary, k: nat, r: int)
    requires 0 < k < |s.l|
  {
    (s.l[k - 1].width + s.l[k].width) as real + s.l[k].delta <= f(s, r)
  }

  /** One turn of compress. */
  function CompressAt(f: ErrorFn, s: Summary, k: nat, r: int): (t: Summary)
    requires 0 < k < |s.l|
    ensures t.n == s.n && k - 1 < |t.l|
  {
    if Mergeable(f, s, k, r) then s.(l := Absorb(s.l, k - 1)) else s
  }

  /** The loop of compress from position `k - 1` down to 0; `r` is the rank it carries. */
  function CompressDown(f: ErrorFn, s: Summary, k: nat, r: int): (t: Summary)
    requires k < |s.l|
    ensures t.n == s.n
    decreases k
  {
    if k == 0 then s
    else
      CompressDown(f, CompressAt(f, s, k, r), k - 1, r - s.l[k - 1].width)
  }

  function Compress(f: ErrorFn, s: Summary): Summary {
    if |s.l| < 2 then s
    else CompressDown(f, s, |s.l| - 1, s.n - 1 - s.l[|s.l| - 1].width)
  }

  function Merge(f: ErrorFn, s: Summary, xs: seq<Sample>): Summary {
    Compress(f, MergeAll(f, Cursor(s, 0, 0), xs).s)
  }

  // ---------------------------------------------------------------- what a summary says about the observations

  function SumWidths(l: seq<Sample>): nat {
    if l == [] then 0 else SumWidths(l[..|l| - 1]) + l[|l| - 1].width
  }

  /** The widths of the samples not above `v`. */
  function WidthUpTo(l: seq<Sample>, v: real): nat {
    if l == [] then 0 else WidthUpTo(l[..|l| - 1], v) + (if l[|l| - 1].value <= v then l[|l| - 1].width else 0)
  }

  /** How many observations are not above `v`. */
  function CountUpTo(obs: seq<real>, v: real): nat {
    if obs == [] then 0 else CountUpTo(obs[..|obs| - 1], v) + (if obs[|obs| - 1] <= v then 1 else 0)
  }

  /** How many observations are below `v`. */
  function CountBelow(obs: seq<real>, v: real): nat {
    if obs == [] then 0 else CountBelow(obs[..|obs| - 1], v) + (if obs[|obs| - 1] < v then 1 else 0)
  }

  function Values(l: seq<Sample>): (vs: seq<real>)
    ensures |vs| == |l| && forall i :: 0 <= i < |l| ==> vs[i] == l[i].value
  {
    seq(|l|, i requires 0 <= i < |l| => l[i].value)
  }

  /**
   The summary is sorted, its widths add up to the number of observations, the widths up to any value
   never exceed the observations up to it, every value was observed, and the last one is the largest.
   */
  ghost predicate Summarizes(s: Summary, obs: seq<real>) {
    && Sorted(s.l) && SumWidths(s.l) == s.n == |obs|
    && (forall v: real :: WidthUpTo(s.l, v) <= CountUpTo(obs, v))
    && (forall i :: 0 <= i < |s.l| ==> s.l[i].value in obs)
    && (forall o :: o in obs ==> s.l != [] && o <= s.l[|s.l| - 1].value)
  }

  lemma {:induction false} SumConcat(a: seq<Sample>, b: seq<Sample>)
    ensures SumWidths(a + b) == SumWidths(a) + SumWidths(b)
  {
    if b == [] {
      assert a + b == a;
    } else {
      assert (a + b)[..|a + b| - 1] == a + b[..|b| - 1];
      SumConcat(a, b[..|b| - 1]);
    }
  }

  lemma {:induction false} WidthConcat(a: seq<Sample>, b: seq<Sample>, v: real)
    ensures WidthUpTo(a + b, v) == WidthUpTo(a, v) + WidthUpTo(b, v)
  {
    if b == [] {
      assert a + b == a;
    } else {
      assert (a + b)[..|a + b| - 1] == a + b[..|b| - 1];
      WidthConcat(a, b[..|b| - 1], v);
    }
  }

  lemma SumOneMore(l: seq<Sample>, k: nat)
    requires k < |l|
    ensures SumWidths(l[..k + 1]) == SumWidths(l[..k]) + l[k].width
  {
    assert l[..k + 1][..k] == l[..k];
  }

  lemma SumTwo(a: Sample, b: Sample)
    ensures SumWidths([a]) == a.width && SumWidths([a, b]) == a.width + b.width
  {
    assert [a][..0] == [] && [a, b][..1] == [a];
  }

  lemma WidthTwo(a: Sample, b: Sample, v: real)
    ensures WidthUpTo([a], v) == (if a.value <= v then a.width else 0)
    ensures WidthUpTo([a, b], v) == WidthUpTo([a], v) + WidthUpTo([b], v)
  {
    assert [a][..0] == [] && [a, b][..1] == [a] && [b][..0] == [];
  }

  /** The widths up to sample i are a lower bound for its rank. */
  lemma RankLowerBound(s: Summary, obs: seq<real>, i: nat)
    requires Summarizes(s, obs) && i < |s.l|
    ensures SumWidths(s.l[..i + 1]) <= CountUpTo(obs, s.l[i].value)
  {
    var v := s.l[i].value;
    var a, b := s.l[..i + 1], s.l[i + 1..];
    assert s.l == a + b;
    WidthConcat(a, b, v);
    AllUpTo(a, v);
  }

  lemma {:induction false} AllUpTo(l: seq<Sample>, v: real)
    requires forall i :: 0 <= i < |l| ==> l[i].value <= v
    ensures WidthUpTo(l, v) == SumWidths(l)
  {
    if l != [] { AllUpTo(l[..|l| - 1], v); }
  }

  // ---------------------------------------------------------------- merging keeps the summary true

  lemma {:induction false} SkipToStops(l: seq<Sample>, i: nat, r: int, v: real)
    requires i <= |l| && Sorted(l) && (forall k :: 0 <= k < i ==> l[k].value <= v)
    ensures var p := SkipTo(l, i, r, v).0;
            && (forall k :: 0 <= k < p ==> l[k].value <= v)
            && (forall k :: p <= k < |l| ==> l[k].value > v)
    decreases |l| - i
  {
    if i < |l| && l[i].value <= v { SkipToStops(l, i + 1, r + l[i].width, v); }
  }

  /** The list after one merge is the old one with the sample put in at the position reached. */
  lemma MergeOneInserts(f: ErrorFn, c: Cursor, x: Sample)
    requires c.i <= |c.s.l|
    ensures var p := SkipTo(c.s.l, c.i, c.r, x.value).0;
            var d := MergeOne(f, c, x);
            && p < |d.s.l| && d.s.l == c.s.l[..p] + [d.s.l[p]] + c.s.l[p..]
            && d.s.l[p].value == x.value && d.s.l[p].width == x.width
            && d.i == p + 1 && d.s.n == c.s.n + x.width
  {
  }

  lemma CountOneMore(obs: seq<real>, o: real, v: real)
    ensures CountUpTo(obs + [o], v) == CountUpTo(obs, v) + (if o <= v then 1 else 0)
  {
    assert (obs + [o])[..|obs|] == obs;
  }

  lemma InsertWidths(a: seq<Sample>, y: Sample, b: seq<Sample>, v: real)
    ensures WidthUpTo(a + [y] + b, v) == WidthUpTo(a + b, v) + (if y.value <= v then y.width else 0)
    ensures SumWidths(a + [y] + b) == SumWidths(a + b) + y.width
  {
    WidthConcat(a + [y], b, v);
    WidthConcat(a, [y], v);
    WidthConcat(a, b, v);
    WidthTwo(y, y, v);
    SumConcat(a + [y], b);
    SumConcat(a, [y]);
    SumConcat(a, b);
    SumTwo(y, y);
  }

  /** Merging one observation. */
  lemma MergeOneSummarizes(f: ErrorFn, c: Cursor, x: Sample, obs: seq<real>)
    requires c.i <= |c.s.l| && Summarizes(c.s, obs) && x.width == 1
    requires forall k :: 0 <= k < c.i ==> c.s.l[k].value <= x.value
    ensures var d := MergeOne(f, c, x);
            Summarizes(d.s, obs + [x.value]) && forall k :: 0 <= k < d.i ==> d.s.l[k].value <= x.value
  {
    hide MergeOne, Sorted, WidthUpTo, CountUpTo, SumWidths;
    var d := MergeOne(f, c, x);
    var p := SkipTo(c.s.l, c.i, c.r, x.value).0;
    MergeOneInserts(f, c, x);
    SkipToStops(c.s.l, c.i, c.r, x.value);
    InsertedSummarizes(c.s, d.s, p, obs);
  }

  /** One more observation of width 1, put in between the values not above it and those above it. */
  lemma InsertedSummarizes(s: Summary, t: Summary, p: nat, obs: seq<real>)
    requires Summarizes(s, obs) && p <= |s.l| && p < |t.l| && t.n == s.n + 1
    requires var y := t.l[p];
             && y.width == 1 && t.l == s.l[..p] + [y] + s.l[p..]
             && (forall k :: 0 <= k < p ==> s.l[k].value <= y.value)
             && (forall k :: p <= k < |s.l| ==> s.l[k].value > y.value)
    ensures Summarizes(t, obs + [t.l[p].value])
  {
    hide Sorted, WidthUpTo, CountUpTo, SumWidths;
    var a, y, b := s.l[..p], t.l[p], s.l[p..];
    assert s.l == a + b;
    InsertedIsSorted(a, y, b);
    InsertWidths(a, y, b, 0.0);
    forall v: real ensures WidthUpTo(t.l, v) <= CountUpTo(obs + [y.value], v) {
      InsertWidths(a, y, b, v);
      CountOneMore(obs, y.value, v);
    }
    InsertedObserved(a, y, b, obs);
  }

  lemma InsertedIsSorted(a: seq<Sample>, y: Sample, b: seq<Sample>)
    requires Sorted(a + b)
    requires (forall k :: 0 <= k < |a| ==> a[k].value <= y.value) && (forall k :: 0 <= k < |b| ==> b[k].value > y.value)
    ensures Sorted(a + [y] + b)
  {
    var l := a + b;
    assert forall k :: 0 <= k < |a| ==> l[k] == a[k];
    assert forall k :: 0 <= k < |b| ==> l[|a| + k] == b[k];
  }

  lemma InsertedObserved(a: seq<Sample>, y: Sample, b: seq<Sample>, obs: seq<real>)
    requires Sorted(a + [y] + b)
    requires forall i :: 0 <= i < |a + b| ==> (a + b)[i].value in obs
    requires forall o :: o in obs ==> a + b != [] && o <= (a + b)[|a + b| - 1].value
    ensures var l := a + [y] + b;
            var os := obs + [y.value];
            && (forall i :: 0 <= i < |l| ==> l[i].value in os)
            && (forall o :: o in os ==> o <= l[|l| - 1].value)
  {
    var l := a + [y] + b;
    var os := obs + [y.value];
    forall i | 0 <= i < |l| ensures l[i].value in os {
      if i < |a| { assert l[i] == (a + b)[i]; } else if i > |a| { assert l[i] == (a + b)[i - 1]; }
    }
    assert l[|a|] == y;
    forall o | o in os ensures o <= l[|l| - 1].value {
      if o in obs {
        if b == [] { assert (a + b)[|a + b| - 1] == l[|a| - 1]; } else { assert (a + b)[|a + b| - 1] == l[|l| - 1]; }
      }
    }
  }

  /** Merging a sorted batch of single observations. */
  lemma {:induction false} MergeAllSummarizes(f: ErrorFn, c: Cursor, xs: seq<Sample>, obs: seq<real>)
    requires c.i <= |c.s.l| && Summarizes(c.s, obs) && Sorted(xs)
    requires forall k :: 0 <= k < |xs| ==> xs[k].width == 1
    requires xs != [] ==> forall k :: 0 <= k < c.i ==> c.s.l[k].value <= xs[0].value
    ensures Summarizes(MergeAll(f, c, xs).s, obs + Values(xs))
    decreases |xs|
  {
    hide MergeOne, Summarizes;
    if xs == [] {
      assert obs + Values(xs) == obs;
    } else {
      MergeOneSummarizes(f, c, xs[0], obs);
      var ys := xs[1..];
      MergeAllSummarizes(f, MergeOne(f, c, xs[0]), ys, obs + [xs[0].value]);
      assert obs + [xs[0].value] + Values(ys) == obs + Values(xs);
    }
  }

  // ---------------------------------------------------------------- compressing keeps the summary true

  lemma AbsorbParts(l: seq<Sample>, i: nat)
    requires i + 1 < |l|
    ensures l == l[..i] + ([l[i], l[i + 1]] + l[i + 2..])
    ensures Absorb(l, i) == l[..i] + ([l[i + 1].(width := l[i + 1].width + l[i].width)] + l[i + 2..])
  {
  }

  lemma AbsorbWidths(l: seq<Sample>, i: nat, v: real)
    requires i + 1 < |l| && l[i].value <= l[i + 1].value
    ensures WidthUpTo(Absorb(l, i), v) <= WidthUpTo(l, v)
    ensures SumWidths(Absorb(l, i)) == SumWidths(l)
  {
    hide Absorb, WidthUpTo, SumWidths;
    var c, x := l[i], l[i + 1];
    var y := x.(width := x.width + c.width);
    var a, b := l[..i], l[i + 2..];
    AbsorbParts(l, i);
    WidthConcat(a, [c, x] + b, v);
    WidthConcat([c, x], b, v);
    WidthConcat(a, [y] + b, v);
    WidthConcat([y], b, v);
    WidthTwo(c, x, v);
    WidthTwo(x, x, v);
    WidthTwo(y, y, v);
    SumConcat(a, [c, x] + b);
    SumConcat([c, x], b);
    SumConcat(a, [y] + b);
    SumConcat([y], b);
    SumTwo(c, x);
    SumTwo(y, y);
  }

  lemma AbsorbSummarizes(s: Summary, i: nat, obs: seq<real>)
    requires Summarizes(s, obs) && i + 1 < |s.l|
    ensures Summarizes(s.(l := Absorb(s.l, i)), obs)
  {
    var l, m := s.l, Absorb(s.l, i);
    forall k | 0 <= k < |m| ensures m[k].value == l[if k < i then k else k + 1].value {
    }
    AbsorbWidths(l, i, 0.0);
    forall v: real ensures WidthUpTo(m, v) <= CountUpTo(obs, v) {
      AbsorbWidths(l, i, v);
    }
  }

  lemma CompressAtSummarizes(f: ErrorFn, s: Summary, k: nat, r: int, obs: seq<real>)
    requires Summarizes(s, obs) && 0 < k < |s.l|
    ensures Summarizes(CompressAt(f, s, k, r), obs)
  {
    hide Summarizes, Mergeable, Absorb;
    if Mergeable(f, s, k, r) { AbsorbSummarizes(s, k - 1, obs); }
  }

  lemma {:induction false} CompressDownSummarizes(f: ErrorFn, s: Summary, k: nat, r: int, obs: seq<real>)
    requires Summarizes(s, obs) && k < |s.l|
    ensures Summarizes(CompressDown(f, s, k, r), obs)
    decreases k
  {
    if k > 0 {
      hide Summarizes, CompressAt;
      CompressAtSummarizes(f, s, k, r, obs);
      CompressDownSummarizes(f, CompressAt(f, s, k, r), k - 1, r - s.l[k - 1].width, obs);
    }
  }

  /** merge followed by compress, for whatever error function. */
  lemma MergeSummarizes(f: ErrorFn, s: Summary, xs: seq<Sample>, obs: seq<real>)
    requires Summarizes(s, obs) && Sorted(xs) && forall k :: 0 <= k < |xs| ==> xs[k].width == 1
    ensures Summarizes(Merge(f, s, xs), obs + Values(xs))
  {
    MergeAllSummarizes(f, Cursor(s, 0, 0), xs, obs);
    hide Summarizes, MergeAll, Compress;
    CompressSummarizes(f, MergeAll(f, Cursor(s, 0, 0), xs).s, obs + Values(xs));
  }

  lemma CompressSummarizes(f: ErrorFn, s: Summary, obs: seq<real>)
    requires Summarizes(s, obs)
    ensures Summarizes(Compress(f, s), obs)
  {
    hide Summarizes, CompressDown;
    if |s.l| >= 2 { CompressDownSummarizes(f, s, |s.l| - 1, s.n - 1 - s.l[|s.l| - 1].width, obs); }
  }
}
