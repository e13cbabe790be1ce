/**
 The stream in place: a buffer of single observations that is sorted and merged into the summary when full.
 sort.Sort is replaced by an insertion sort; any sorted permutation would do.
 */
module QuantileStream {
  import opened Common
  import opened QuantileSummary
  import opened QuantileRank

  /** The inner stream: the summary as fields that merge and compress rewrite. */
  class Inner {
    var n: nat
    var l: seq<Sample>
    const f: ErrorFn

    constructor (f: ErrorFn)
      ensures State() == Summary(0, []) && this.f == f
    {
      this.f := f;
      n, l := 0, [];
    }

    function State(): Summary
      reads this
    {
      Summary(n, l)
    }

    method Merge(xs: seq<Sample>)
      modifies this
      ensures State() == QuantileSummary.Merge(f, old(State()), xs)
    {
      hide MergeOne, Compress;
      var i: nat, r: int := 0, 0;
      assert xs[0..] == xs;
      for k := 0 to |xs|
        invariant i <= |l|
        invariant MergeAll(f, Cursor(old(State()), 0, 0), xs) == MergeAll(f, Cursor(State(), i, r), xs[k..])
      {
        assert xs[k..][0] == xs[k] && xs[k..][1..] == xs[k + 1..];
        i, r := MergeSample(xs[k], i, r);
      }
      assert xs[|xs|..] == [];
      CompressList();
    }

    /** One turn of merge: the sample goes in before the first larger value from position `i` on. */
    method MergeSample(x: Sample, i0: nat, r0: int) returns (i: nat, r: int)
      requires i0 <= |l|
      modifies this
      ensures Cursor(State(), i, r) == MergeOne(f, Cursor(old(State()), i0, r0), x)
    {
      hide SkipTo, FloorMinusOne, MaxReal;
      i, r := SkipPast(x.value, i0, r0);
      if i < |l| {
        l := l[..i + 1] + l[i..];
        l := l[i := Sample(x.value, x.width, MaxReal(x.delta, FloorMinusOne(f(State(), r))))];
      } else {
        l := l + [Sample(x.value, x.width, 0.0)];
      }
      i := i + 1;
      n := n + x.width;
      r := r + x.width;
    }

    /** The inner loop: on to the first larger value. */
    method SkipPast(v: real, i0: nat, r0: int) returns (i: nat, r: int)
      requires i0 <= |l|
      ensures (i, r) == SkipTo(l, i0, r0, v)
    {
      i, r := i0, r0;
      while i < |l| && !(l[i].value > v)
        invariant i <= |l|
        invariant SkipTo(l, i0, r0, v) == SkipTo(l, i, r, v)
      {
        r := r + l[i].width;
        i := i + 1;
      }
    }

    /** compress: merges neighbours from the back while the error allows it. */
    method CompressList()
      modifies this
      ensures State() == Compress(f, old(State()))
    {
      hide CompressDown, Absorb;
      if |l| < 2 {
        return;
      }
      var x := l[|l| - 1];
      var xi := |l| - 1;
      var r := n - 1 - x.width;
      var i := |l| - 2;
      while i >= 0
        invariant -1 <= i && xi == i + 1 < |l| && x == l[xi]
        invariant Compress(f, old(State())) == CompressDown(f, State(), i + 1, r)
      {
        var c := l[i];
        DownStep(i + 1, r);
        if (c.width + x.width) as real + x.delta <= f(State(), r) {
          x := x.(width := x.width + c.width);
          AbsorbInPlace(l, i);
          l := l[xi := x];
          l := l[..i] + l[i + 1..];
          xi := xi - 1;
        } else {
          x := c;
          xi := i;
        }
        r := r - c.width;
        i := i - 1;
      }
      DownEnd(r);
    }

    /** One turn of compress on the list as it stands. */
    lemma DownStep(k: nat, r: int)
      requires 0 < k < |l|
      ensures var s := State();
              var fits := (l[k - 1].width + l[k].width) as real + l[k].delta <= f(s, r);
              var next := if fits then s.(l := Absorb(l, k - 1)) else s;
              CompressDown(f, s, k, r) == CompressDown(f, next, k - 1, r - l[k - 1].width)
    {
    }

    lemma DownEnd(r: int)
      requires l != []
      ensures CompressDown(f, State(), 0, r) == State()
    {
    }

    /** query: the value of the sample in front of the first one whose rank could exceed the target. */
    method Query(q: real) returns (v: real, ghost c: nat)
      requires l != []
      ensures Answers(f, State(), q, c) && 1 <= c <= |l| && v == l[c - 1].value
    {
      hide Target, Answers;
      var t := Target(f, State(), q);
      TargetAnswers(f, State(), q);
      c := Chosen(l, 1, l[0].width, t);
      var p := l[0];
      var r: nat := 0;
      for k := 1 to |l|
        invariant p == l[k - 1]
        invariant Chosen(l, 1, l[0].width, t) == Chosen(l, k, r + p.width, t)
      {
        r := r + p.width;
        if (r + l[k].width) as real + l[k].delta > t {
          v := p.value;
          return;
        }
        p := l[k];
      }
      v := p.value;
    }
  }

  /** The right neighbour takes over the width, and the element is deleted. */
  lemma AbsorbInPlace(l: seq<Sample>, i: nat)
    requires i + 1 < |l|
    ensures var x := l[i + 1].(width := l[i + 1].width + l[i].width);
            Absorb(l, i) == l[i + 1 := x][..i] + l[i + 1 := x][i + 1..]
  {
  }

  function Ceil(x: real): int {
    -(-x).Floor
  }

  /** `k` is `x` rounded up. */
  predicate RoundsUp(x: real, k: int) {
    (k - 1) as real < x <= k as real
  }

  /** The rank that query looks for, with half the allowed error added. */
  function Target(f: ErrorFn, s: Summary, q: real): real {
    var t := Ceil(Wanted(s.n, q));
    (t + Ceil(HalfError(f, s, t))) as real
  }

  /** The rank asked for, as a real number. */
  function Wanted(n: nat, q: real): real {
    q * n as real
  }

  function HalfError(f: ErrorFn, s: Summary, r: int): real {
    f(s, r) / 2.0
  }

  /** The first position from `k` on whose sample might lie beyond `t`; `r` is the sum of the widths before it. */
  function Chosen(l: seq<Sample>, k: nat, r: nat, t: real): (c: nat)
    requires 1 <= k <= |l|
    ensures k <= c <= |l|
    decreases |l| - k
  {
    if k == |l| || (r + l[k].width) as real + l[k].delta > t then k else Chosen(l, k + 1, r + l[k].width, t)
  }

  /** The sample chosen is the last one before the first that might lie beyond the target. */
  lemma {:induction false} ChosenIsFirst(l: seq<Sample>, k: nat, r: nat, t: real)
    requires 1 <= k <= |l| && r == SumWidths(l[..k])
    ensures var c := Chosen(l, k, r, t);
            && (forall j :: k <= j < c ==> SumWidths(l[..j + 1]) as real + l[j].delta <= t)
            && (c < |l| ==> SumWidths(l[..c + 1]) as real + l[c].delta > t)
    decreases |l| - k
  {
    hide SumWidths;
    if k < |l| {
      SumOneMore(l, k);
      if !((r + l[k].width) as real + l[k].delta > t) { ChosenIsFirst(l, k + 1, r + l[k].width, t); }
    }
  }

  /** Behind the sample at `c - 1` comes the first that might be ranked beyond `t`, or nothing. */
  ghost predicate LastWithin(l: seq<Sample>, c: nat, t: int) {
    && 1 <= c <= |l|
    && (forall j :: 1 <= j < c ==> SumWidths(l[..j + 1]) as real + l[j].delta <= t as real)
    && (c < |l| ==> SumWidths(l[..c + 1]) as real + l[c].delta > t as real)
  }

  /** The sample that answers a query: the last within the rank asked for and half of the error allowed there. */
  ghost predicate Answers(f: ErrorFn, s: Summary, q: real, c: nat) {
    exists t: int :: RoundsUp(Wanted(s.n, q), t) && AnswersRank(f, s, t, c)
  }

  ghost predicate AnswersRank(f: ErrorFn, s: Summary, t: int, c: nat) {
    exists e: int :: RoundsUp(HalfError(f, s, t), e) && LastWithin(s.l, c, t + e)
  }

  lemma CeilRoundsUp(x: real)
    ensures RoundsUp(x, Ceil(x))
  {
    var m := (-x).Floor;
    assert m as real <= -x < m as real + 1.0;
  }

  lemma RoundsUpOnce(x: real, j: int, k: int)
    requires RoundsUp(x, j) && RoundsUp(x, k)
    ensures j == k
  {
    assert j as real < k as real + 1.0 && k as real < j as real + 1.0;
  }

  lemma TargetAnswers(f: ErrorFn, s: Summary, q: real)
    requires s.l != []
    ensures Answers(f, s, q, Chosen(s.l, 1, s.l[0].width, Target(f, s, q)))
  {
    hide SumWidths, Ceil, RoundsUp, HalfError, Wanted;
    var t := Ceil(Wanted(s.n, q));
    var e := Ceil(HalfError(f, s, t));
    CeilRoundsUp(Wanted(s.n, q));
    CeilRoundsUp(HalfError(f, s, t));
    SumOneMore(s.l, 0);
    assert SumWidths([]) == 0 by { NoWidths(); }
    ChosenIsFirst(s.l, 1, s.l[0].width, Target(f, s, q));
    assert LastWithin(s.l, Chosen(s.l, 1, s.l[0].width, Target(f, s, q)), t + e);
    assert AnswersRank(f, s, t, Chosen(s.l, 1, s.l[0].width, Target(f, s, q)));
  }

  lemma NoWidths()
    ensures SumWidths([]) == 0
  {
  }

  /** Without any error allowed, the answer has exactly the rank asked for, as far as there is one. */
  lemma ExactAnswer(f: ErrorFn, s: Summary, obs: seq<real>, q: real, c: nat, t: int)
    requires Summarizes(s, obs) && Ranked(f, s, obs) && (forall r: int :: f(s, r) == 0.0)
    requires Answers(f, s, q, c) && RoundsUp(Wanted(s.n, q), t)
    ensures var k := Max(1, Min(t, s.n));
            1 <= c <= |s.l| && CountUpTo(obs, s.l[c - 1].value) >= k && CountBelow(obs, s.l[c - 1].value) < k
  {
    hide Summarizes, Ranked, CountUpTo, CountBelow, SumWidths, RoundsUp, Answers, HalfError, Wanted;
    NoErrorAnswers(f, s, q, c, t);
    RankLowerBound(s, obs, c - 1);
    RankUpperBound(f, s, obs, c - 1);
    OneEach(f, s, obs, c);
    OneEach(f, s, obs, |s.l|);
    WholeWidth(s, obs);
    assert s.l[..|s.l|] == s.l;
    if c > 1 { assert SumWidths(s.l[..c - 1 + 1]) as real + s.l[c - 1].delta <= t as real; }
    if c < |s.l| { OneEach(f, s, obs, c + 1); }
  }

  ghost predicate NothingAllowed(f: ErrorFn) {
    forall s: Summary, r: int :: f(s, r) == 0.0
  }

  lemma NothingWanes(f: ErrorFn)
    requires NothingAllowed(f)
    ensures Waning(f)
  {
  }

  /** The rank of the answer differs from the target by no more than the error allowed where the answer stands. */
  lemma AnswerRank(f: ErrorFn, s: Summary, obs: seq<real>, c: nat, t: int)
    requires Summarizes(s, obs) && Ranked(f, s, obs) && LastWithin(s.l, c, t)
    ensures var v := s.l[c - 1].value;
            && (CountBelow(obs, v) + 1) as real <= MaxReal(t as real, MaxReal(1.0, f(s, 0)))
            && (if c < |s.l| then CountUpTo(obs, v) as real > t as real - MaxReal(1.0, f(s, SumWidths(s.l[..c])))
                else forall o :: o in obs ==> o <= v)
  {
    hide Summarizes, Ranked, CountUpTo, CountBelow, SumWidths, MaxReal;
    RankLowerBound(s, obs, c - 1);
    RankUpperBound(f, s, obs, c - 1);
    if c == 1 {
      assert SumWidths(s.l[..0]) == 0 by { NoWidths(); }
      SumOneMore(s.l, 0);
    }
    assert forall a: real, b: real :: MaxReal(a, b) >= a && MaxReal(a, b) >= b by { hide *; MaxIsMax(); }
    if c < |s.l| {
      SumOneMore(s.l, c);
      RankUpperBound(f, s, obs, c);
    } else {
      LargestLast(s, obs);
    }
  }

  lemma MaxIsMax()
    ensures forall a: real, b: real :: MaxReal(a, b) >= a && MaxReal(a, b) >= b
  {
  }

  lemma LargestLast(s: Summary, obs: seq<real>)
    requires Summarizes(s, obs) && s.l != []
    ensures forall o :: o in obs ==> o <= s.l[|s.l| - 1].value
  {
  }

  predicate HasRank(obs: seq<real>, v: real, k: int) {
    CountUpTo(obs, v) >= k && CountBelow(obs, v) < k
  }

  /** `v` has the rank asked for, rounded up; below the first rank it is the least, above the last the greatest. */
  ghost predicate HasRankAsked(obs: seq<real>, q: real, v: real) {
    exists t: int :: RoundsUp(Wanted(|obs|, q), t) && HasRank(obs, v, Max(1, Min(t, |obs|)))
  }

  /** `k` is `x` with its fraction cut off. */
  predicate CutsOff(x: real, k: int) {
    if x >= 0.0 then k as real <= x < (k + 1) as real else (k - 1) as real < x <= k as real
  }

  /** `v` has the rank asked for, with its fraction cut off; the first rank stands in for anything below it. */
  ghost predicate HasRankBelow(obs: seq<real>, q: real, v: real) {
    exists k: int :: CutsOff(Wanted(|obs|, q), k) && HasRank(obs, v, Max(1, k))
  }

  lemma AnswersExactly(f: ErrorFn, s: Summary, obs: seq<real>, q: real, c: nat)
    requires Summarizes(s, obs) && Ranked(f, s, obs) && (forall r: int :: f(s, r) == 0.0) && Answers(f, s, q, c)
    ensures 1 <= c <= |s.l| && HasRankAsked(obs, q, s.l[c - 1].value)
  {
    hide Ranked, Answers, RoundsUp, CountUpTo, CountBelow, Wanted, Ceil;
    var t := Ceil(Wanted(s.n, q));
    CeilRoundsUp(Wanted(s.n, q));
    ExactAnswer(f, s, obs, q, c, t);
    assert HasRank(obs, s.l[c - 1].value, Max(1, Min(t, |obs|)));
  }

  lemma NoErrorAnswers(f: ErrorFn, s: Summary, q: real, c: nat, t: int)
    requires Answers(f, s, q, c) && RoundsUp(Wanted(s.n, q), t) && (forall r: int :: f(s, r) == 0.0)
    ensures LastWithin(s.l, c, t)
  {
    hide LastWithin, RoundsUp, Wanted;
    var t' :| RoundsUp(Wanted(s.n, q), t') && AnswersRank(f, s, t', c);
    RoundsUpOnce(Wanted(s.n, q), t', t);
    var e :| RoundsUp(HalfError(f, s, t), e) && LastWithin(s.l, c, t + e);
    assert RoundsUp(0.0, 0) by { ZeroRoundsUp(); }
    RoundsUpOnce(0.0, e, 0);
    assert LastWithin(s.l, c, t + 0);
  }

  lemma ZeroRoundsUp()
    ensures RoundsUp(0.0, 0)
  {
  }

  lemma WholeWidth(s: Summary, obs: seq<real>)
    requires Summarizes(s, obs)
    ensures SumWidths(s.l) == s.n
  {
  }

  /** Without any error allowed, every observation keeps a sample of its own. */
  lemma {:induction false} OneEach(f: ErrorFn, s: Summary, obs: seq<real>, i: nat)
    requires Ranked(f, s, obs) && i <= |s.l| && (forall r: int :: f(s, r) == 0.0)
    ensures SumWidths(s.l[..i]) == i && forall j :: 0 <= j < i ==> s.l[j].width == 1 && s.l[j].delta == 0.0
  {
    hide Ranked, CountBelow, SumWidths;
    if i == 0 {
      NoWidths();
    } else {
      OneEach(f, s, obs, i - 1);
      RankUpperBound(f, s, obs, i - 1);
      SumOneMore(s.l, i - 1);
      AtLeastOne(f, s, obs, i - 1);
    }
  }

  lemma AtLeastOne(f: ErrorFn, s: Summary, obs: seq<real>, i: nat)
    requires Ranked(f, s, obs) && i < |s.l|
    ensures s.l[i].width >= 1 && s.l[i].delta >= 0.0
  {
  }

  // ---------------------------------------------------------------- sorting the buffer

  lemma {:induction false} CountAppend(a: seq<real>, b: seq<real>, v: real)
    ensures CountUpTo(a + b, v) == CountUpTo(a, v) + CountUpTo(b, v)
  {
    if b == [] {
      assert a + b == a;
    } else {
      assert (a + b)[..|a + b| - 1] == a + b[..|b| - 1];
      CountAppend(a, b[..|b| - 1], v);
    }
  }

  /** Taking one element out of a sequence takes it out of the multiset. */
  lemma RemoveOne<T>(b: seq<T>, k: nat)
    requires k < |b|
    ensures multiset(b[..k] + b[k + 1..]) == multiset(b) - multiset{b[k]}
  {
    assert b == b[..k] + [b[k]] + b[k + 1..];
  }

  /** Any two orders of the same elements: the last one of `a` stands somewhere in `b`. */
  lemma FindLast<T>(a: seq<T>, b: seq<T>) returns (k: nat)
    requires a != [] && multiset(a) == multiset(b)
    ensures k < |b| && b[k] == a[|a| - 1]
    ensures multiset(b[..k] + b[k + 1..]) == multiset(a[..|a| - 1])
  {
    var x, init := a[|a| - 1], a[..|a| - 1];
    assert a == init + [x];
    assert x in multiset(b);
    k :| 0 <= k < |b| && b[k] == x;
    RemoveOne(b, k);
    assert multiset(a) == multiset(init) + multiset{x};
  }

  /** The order of the observations does not matter. */
  lemma {:induction false} CountPermuted(a: seq<real>, b: seq<real>, v: real)
    requires multiset(a) == multiset(b)
    ensures CountUpTo(a, v) == CountUpTo(b, v)
    decreases |a|
  {
    if a == [] {
      assert |multiset(b)| == 0;
    } else {
      var x, init := a[|a| - 1], a[..|a| - 1];
      var k := FindLast(a, b);
      CountPermuted(init, b[..k] + b[k + 1..], v);
      assert a == init + [x] && b == b[..k] + ([x] + b[k + 1..]);
      CountAppend(b[..k], [x] + b[k + 1..], v);
      CountAppend([x], b[k + 1..], v);
      CountAppend(b[..k], b[k + 1..], v);
      CountAppend(init, [x], v);
    }
  }

  /** Two summaries of the same observations in another order say the same. */
  lemma SummarizesPermuted(s: Summary, a: seq<real>, b: seq<real>)
    requires Summarizes(s, a) && multiset(a) == multiset(b)
    ensures Summarizes(s, b)
  {
    assert |a| == |multiset(a)| == |multiset(b)| == |b|;
    forall v: real ensures WidthUpTo(s.l, v) <= CountUpTo(b, v) { CountPermuted(a, b, v); }
    forall o ensures o in a <==> o in b {
      assert o in a <==> o in multiset(a);
      assert o in b <==> o in multiset(b);
    }
  }

  lemma RankedPermuted(f: ErrorFn, s: Summary, a: seq<real>, b: seq<real>)
    requires Ranked(f, s, a) && multiset(a) == multiset(b)
    ensures Ranked(f, s, b)
  {
    hide RankedAt, SumWidths;
    forall i | 0 <= i < |s.l| ensures CountBelow(a, s.l[i].value) == CountBelow(b, s.l[i].value) {
      CountBelowPermuted(a, b, s.l[i].value);
    }
  }

  lemma InsertKeepsSorted(s: seq<Sample>, i: nat, x: Sample)
    requires Sorted(s) && i <= |s| && (i > 0 ==> s[i - 1].value <= x.value)
    requires forall k :: i <= k < |s| ==> s[k].value > x.value
    ensures Sorted(s[..i] + [x] + s[i..])
    ensures multiset(s[..i] + [x] + s[i..]) == multiset(s) + multiset{x}
  {
    assert s == s[..i] + s[i..];
    InsertedIsSorted(s[..i], x, s[i..]);
  }

  /** One step of insertion: `x` goes behind the samples not above it. */
  method InsertSorted(s: seq<Sample>, x: Sample) returns (t: seq<Sample>)
    requires Sorted(s)
    ensures Sorted(t) && multiset(t) == multiset(s) + multiset{x}
  {
    hide Sorted;
    var i: nat := |s|;
    while i > 0 && s[i - 1].value > x.value
      invariant 0 <= i <= |s| && forall k :: i <= k < |s| ==> s[k].value > x.value
    {
      i := i - 1;
    }
    InsertKeepsSorted(s, i, x);
    t := s[..i] + [x] + s[i..];
  }

  method Sort(b: seq<Sample>) returns (s: seq<Sample>)
    ensures Sorted(s) && multiset(s) == multiset(b)
  {
    s := [];
    for i := 0 to |b|
      invariant Sorted(s) && multiset(s) == multiset(b[..i])
    {
      assert b[..i + 1] == b[..i] + [b[i]];
      s := InsertSorted(s, b[i]);
    }
    assert b[..|b|] == b;
  }

  /** The same samples hold the same values. */
  lemma {:induction false} ValuesPermuted(a: seq<Sample>, b: seq<Sample>)
    requires multiset(a) == multiset(b)
    ensures multiset(Values(a)) == multiset(Values(b)) && |a| == |b|
    decreases |a|
  {
    assert |a| == |multiset(a)| == |multiset(b)| == |b|;
    if a == [] {
      assert Values(a) == Values(b);
    } else {
      var k := FindLast(a, b);
      var init, rest := a[..|a| - 1], b[..k] + b[k + 1..];
      ValuesPermuted(init, rest);
      assert Values(a) == Values(init) + [b[k].value];
      assert Values(rest) == Values(b)[..k] + Values(b)[k + 1..];
      RemoveOne(Values(b), k);
      assert b[k].value in Values(b);
    }
  }

  // ---------------------------------------------------------------- the stream

  const BUFFER_SIZE: nat := 500

  predicate Single(x: Sample) {
    x.width == 1 && x.delta == 0.0
  }

  lemma SinglesPermuted(a: seq<Sample>, b: seq<Sample>)
    requires multiset(a) == multiset(b) && forall i :: 0 <= i < |b| ==> Single(b[i])
    ensures |a| == |b| && multiset(Values(a)) == multiset(Values(b))
    ensures forall i :: 0 <= i < |a| ==> Single(a[i])
  {
    ValuesPermuted(a, b);
    forall i | 0 <= i < |a| ensures Single(a[i]) {
      assert a[i] in multiset(b);
    }
  }

  class Stream {
    const inner: Inner
    var b: seq<Sample>
    var sorted: bool

    ghost var observed: seq<real>   // everything inserted since the last Reset
    ghost var flushed: seq<real>    // what has been merged into the summary

    ghost predicate Valid()
      reads this, inner
    {
      && Summarizes(inner.State(), flushed) && (Waning(inner.f) ==> Ranked(inner.f, inner.State(), flushed))
      && multiset(flushed + Values(b)) == multiset(observed)
      && |b| < BUFFER_SIZE && (sorted ==> Sorted(b))
      && forall i :: 0 <= i < |b| ==> Single(b[i])
    }

    constructor (f: ErrorFn)
      ensures Valid() && observed == [] && fresh(inner)
    {
      inner := new Inner(f);
      b, sorted, observed, flushed := [], true, [], [];
      new;
      assert flushed + Values(b) == [];
    }

    method MaybeSort()
      requires (sorted ==> Sorted(b)) && forall i :: 0 <= i < |b| ==> Single(b[i])
      modifies this
      ensures sorted && Sorted(b) && |b| == |old(b)| && multiset(Values(b)) == multiset(Values(old(b)))
      ensures forall i :: 0 <= i < |b| ==> Single(b[i])
      ensures observed == old(observed) && flushed == old(flushed)
    {
      hide Sorted, Single;
      if !sorted {
        sorted := true;
        b := Sort(b);
        SinglesPermuted(b, old(b));
      }
    }

    /** flush: the buffer, sorted, goes into the summary.  The buffer may just have become full. */
    method Flush()
      requires Summarizes(inner.State(), flushed) && (sorted ==> Sorted(b))
      requires Waning(inner.f) ==> Ranked(inner.f, inner.State(), flushed)
      requires multiset(flushed + Values(b)) == multiset(observed)
      requires forall i :: 0 <= i < |b| ==> Single(b[i])
      modifies this, inner
      ensures Valid() && b == [] && observed == old(observed)
    {
      MaybeSort();
      assert multiset(flushed + Values(b)) == multiset(observed);
      BatchSummarized();
      hide Summarizes, QuantileSummary.Merge, Ranked, Waning;
      inner.Merge(b);
      flushed := flushed + Values(b);
      b := [];
      assert flushed + Values(b) == flushed;
    }

    lemma BatchSummarized()
      requires Summarizes(inner.State(), flushed) && Sorted(b)
      requires Waning(inner.f) ==> Ranked(inner.f, inner.State(), flushed)
      requires forall i :: 0 <= i < |b| ==> Single(b[i])
      ensures var s := QuantileSummary.Merge(inner.f, inner.State(), b);
              && Summarizes(s, flushed + Values(b))
              && (Waning(inner.f) ==> Ranked(inner.f, s, flushed + Values(b)))
    {
      hide Summarizes, QuantileSummary.Merge, Sorted, Waning, Ranked;
      MergeSummarizes(inner.f, inner.State(), b, flushed);
      if Waning(inner.f) { MergeRanked(inner.f, inner.State(), b, flushed); }
    }

    method Insert(v: real)
      requires Valid()
      modifies this, inner
      ensures Valid() && observed == old(observed) + [v]
      ensures if old(|b|) == 499 then b == []
              else b == old(b) + [Sample(v, 1, 0.0)] && inner.State() == old(inner.State())
    {
      hide Summarizes;
      ghost var vs := Values(b);
      b := b + [Sample(v, 1, 0.0)];
      observed := observed + [v];
      assert flushed + Values(b) == flushed + vs + [v];
      sorted := false;
      if |b| == BUFFER_SIZE {
        Flush();
      }
    }

    /** Count: exactly the number of observations since the last Reset. */
    method Count() returns (n: nat)
      requires Valid()
      ensures n == |observed|
    {
      assert |flushed + Values(b)| == |multiset(flushed + Values(b))| == |multiset(observed)| == |observed|;
      n := |b| + inner.n;
    }

    method Reset()
      requires Valid()
      modifies this, inner
      ensures Valid() && observed == []
    {
      inner.l := [];
      inner.n := 0;
      b := [];
      observed, flushed := [], [];
      assert flushed + Values(b) == [];
    }

    /** Whatever has been flushed is a true summary; after Flush that is everything observed. */
    method FlushAll()
      requires Valid()
      modifies this, inner
      ensures Valid() && b == [] && observed == old(observed) && Summarizes(inner.State(), observed)
      ensures Waning(inner.f) ==> Ranked(inner.f, inner.State(), observed)
    {
      hide Summarizes, Waning, Ranked;
      Flush();
      assert flushed + Values(b) == flushed;
      SummarizesPermuted(inner.State(), flushed, observed);
      if Waning(inner.f) { RankedPermuted(inner.f, inner.State(), flushed, observed); }
    }

    /**
     Query.  Before the first flush the answer is exact: it is the observation of rank i, counted from 0,
     where i is the rank asked for; if there is no such rank, the code reads outside of its buffer and panics.
     Otherwise everything is flushed, and the answer is the value of the sample in front of the first that might
     lie beyond the rank asked for and half the error; at least the widths up to it are ranked no higher.
     */
    method Query(q: real) returns (r: Option<real>)
      requires Valid()
      modifies this, inner
      ensures Valid() && observed == old(observed)
      ensures observed == [] ==> r == Some(0.0)
      ensures observed != [] && r.Some? ==> r.value in observed
      ensures r == None <==> observed != [] && old(inner.l) == [] &&
                             !(-1.0 < Wanted(|observed|, q) < |observed| as real + 1.0)
      ensures observed != [] && old(inner.l) == [] && r.Some? ==>
                HasRankBelow(observed, q, r.value)
      ensures old(inner.l) != [] ==>
                && r.Some? && b == [] && Summarizes(inner.State(), observed)
                && (Waning(inner.f) ==> Ranked(inner.f, inner.State(), observed))
                && (exists c: nat :: AnswersWith(q, c, r.value))
                && (NothingAllowed(inner.f) ==> HasRankAsked(observed, q, r.value))
    {
      hide Summarizes, Ranked, Waning, HasRankBelow, CountUpTo, CountBelow, SumWidths, Answers, HasRankAsked;
      if |inner.l| == 0 {
        r := QueryBuffer(q);
      } else {
        SummaryNotEmpty();
        FlushAll();
        FlushedNotEmpty();
        var v: real;
        ghost var c;
        v, c := inner.Query(q);
        RankLowerBound(inner.State(), observed, c - 1);
        FlushedValues();
        if NothingAllowed(inner.f) {
          NothingWanes(inner.f);
          AnswersExactly(inner.f, inner.State(), observed, q, c);
        }
        r := Some(v);
        assert AnswersWith(q, c, v);
      }
    }

    ghost predicate AnswersWith(q: real, c: nat, v: real)
      reads this, inner
    {
      && Answers(inner.f, inner.State(), q, c) && c <= |inner.l| && c > 0 && v == inner.l[c - 1].value
      && SumWidths(inner.l[..c]) <= CountUpTo(observed, v)
    }

    lemma FlushedNotEmpty()
      requires Summarizes(inner.State(), observed) && observed != []
      ensures inner.l != []
    {
      assert observed[0] in observed;
    }

    lemma FlushedValues()
      requires Summarizes(inner.State(), observed)
      ensures forall i :: 0 <= i < |inner.l| ==> inner.l[i].value in observed
    {
    }

    lemma SummaryNotEmpty()
      requires Valid() && inner.l != []
      ensures observed != []
    {
      assert inner.l[0].value in flushed;
      assert |flushed| <= |flushed + Values(b)| == |multiset(flushed + Values(b))| == |multiset(observed)|;
    }

    lemma NothingFlushed()
      requires Valid() && inner.l == []
      ensures flushed == [] && |b| == |observed|
    {
      assert |flushed| == SumWidths(inner.l);
      assert flushed + Values(b) == Values(b);
      assert |Values(b)| == |multiset(Values(b))| == |multiset(observed)| == |observed|;
    }

    method QueryBuffer(q: real) returns (r: Option<real>)
      requires Valid() && inner.l == []
      modifies this
      ensures Valid() && observed == old(observed)
      ensures observed == [] ==> r == Some(0.0)
      ensures r == None <==> observed != [] && !(-1.0 < Wanted(|observed|, q) < |observed| as real + 1.0)
      ensures observed != [] && r.Some? ==>
                r.value in observed && HasRankBelow(observed, q, r.value)
    {
      hide Summarizes, Sorted, CountUpTo, CountBelow, Single, RankAsked, CutsOff;
      NothingFlushed();
      if |b| == 0 {
        return Some(0.0);
      }
      var i := Position(|b|, q);
      RankInRange(|b|, q);
      MaybeSort();
      assert multiset(flushed + Values(b)) == multiset(observed);
      if i < 0 || i >= |b| {
        return None;
      }
      r := Some(b[i].value);
      BufferRanks(i);
      RankCutOff(|b|, q);
      var k: int :| CutsOff(Wanted(|b|, q), k) && i + 1 == Max(1, k);
      assert HasRank(observed, r.value, Max(1, k));
    }

    /** While nothing has been flushed, the sorted buffer ranks all observations. */
    lemma BufferRanks(i: nat)
      requires Valid() && flushed == [] && Sorted(b) && i < |b|
      ensures b[i].value in observed
      ensures CountUpTo(observed, b[i].value) >= i + 1 && CountBelow(observed, b[i].value) <= i
    {
      hide Summarizes, CountUpTo, CountBelow, Sorted, Single;
      var r := b[i].value;
      RankOfSorted(b, i);
      assert flushed + Values(b) == Values(b);
      CountPermuted(Values(b), observed, r);
      CountBelowPermuted(Values(b), observed, r);
      assert r in multiset(observed) by { assert r in multiset(Values(b)); }
    }
  }

  /** Go's conversion to an integer truncates toward zero. */
  function Truncate(x: real): int {
    if x >= 0.0 then x.Floor else -((-x).Floor)
  }

  /** The rank asked for: one less than the product rounded, but only if that is positive. */
  function RankAsked(n: nat, q: real): int {
    var i := Truncate(n as real * q);
    if i > 0 then i - 1 else i
  }

  lemma RankCutOff(n: nat, q: real)
    requires 0 <= RankAsked(n, q) < n
    ensures exists k: int :: CutsOff(Wanted(n, q), k) && RankAsked(n, q) + 1 == Max(1, k)
  {
    assert Wanted(n, q) == n as real * q;
    assert CutsOff(Wanted(n, q), Truncate(n as real * q));
  }

  /** For a quantile the rank exists; for other numbers it does only just outside of 0 to 1. */
  lemma RankInRange(n: nat, q: real)
    requires n > 0
    ensures 0 <= RankAsked(n, q) < n <==> -1.0 < Wanted(n, q) < n as real + 1.0
    ensures 0.0 <= q <= 1.0 ==> 0 <= RankAsked(n, q) < n
  {
    assert Wanted(n, q) == n as real * q;
    if 0.0 <= q <= 1.0 { assert 0.0 <= n as real * q <= n as real; }
  }

  method Position(n: nat, q: real) returns (i: int)
    requires n > 0
    ensures i == RankAsked(n, q)
  {
    i := Truncate(n as real * q);
    if i > 0 {
      i := i - 1;
    }
  }

  lemma {:induction false} CountBelowAppend(a: seq<real>, b: seq<real>, v: real)
    ensures CountBelow(a + b, v) == CountBelow(a, v) + CountBelow(b, v)
  {
    if b == [] {
      assert a + b == a;
    } else {
      assert (a + b)[..|a + b| - 1] == a + b[..|b| - 1];
      CountBelowAppend(a, b[..|b| - 1], v);
    }
  }

  lemma {:induction false} CountBelowPermuted(a: seq<real>, b: seq<real>, v: real)
    requires multiset(a) == multiset(b)
    ensures CountBelow(a, v) == CountBelow(b, v)
    decreases |a|
  {
    if a == [] {
      assert |multiset(b)| == 0;
    } else {
      var x, init := a[|a| - 1], a[..|a| - 1];
      var k := FindLast(a, b);
      CountBelowPermuted(init, b[..k] + b[k + 1..], v);
      assert a == init + [x] && b == b[..k] + ([x] + b[k + 1..]);
      CountBelowAppend(b[..k], [x] + b[k + 1..], v);
      CountBelowAppend([x], b[k + 1..], v);
      CountBelowAppend(b[..k], b[k + 1..], v);
      CountBelowAppend(init, [x], v);
    }
  }

  lemma {:induction false} CountAllUpTo(vs: seq<real>, v: real)
    ensures CountUpTo(vs, v) <= |vs| && CountBelow(vs, v) <= |vs|
    ensures (forall k :: 0 <= k < |vs| ==> vs[k] <= v) ==> CountUpTo(vs, v) == |vs|
    ensures (forall k :: 0 <= k < |vs| ==> vs[k] >= v) ==> CountBelow(vs, v) == 0
  {
    if vs != [] { CountAllUpTo(vs[..|vs| - 1], v); }
  }

  lemma UpToInSorted(vs: seq<real>, i: nat)
    requires i < |vs| && forall p, q :: 0 <= p <= q < |vs| ==> vs[p] <= vs[q]
    ensures CountUpTo(vs, vs[i]) >= i + 1
  {
    var lo, hi := vs[..i + 1], vs[i + 1..];
    assert vs == lo + hi;
    CountAppend(lo, hi, vs[i]);
    CountAllUpTo(lo, vs[i]);
  }

  lemma BelowInSorted(vs: seq<real>, i: nat)
    requires i < |vs| && forall p, q :: 0 <= p <= q < |vs| ==> vs[p] <= vs[q]
    ensures CountBelow(vs, vs[i]) <= i
  {
    var lo, hi := vs[..i], vs[i..];
    assert vs == lo + hi;
    CountBelowAppend(lo, hi, vs[i]);
    CountAllUpTo(lo, vs[i]);
    CountAllUpTo(hi, vs[i]);
  }

  /** In a sorted list, at least i + 1 values are up to the one at i, and at most i are below it. */
  lemma RankOfSorted(b: seq<Sample>, i: nat)
    requires Sorted(b) && i < |b|
    ensures b[i].value in Values(b)
    ensures CountUpTo(Values(b), b[i].value) >= i + 1 && CountBelow(Values(b), b[i].value) <= i
  {
    var vs := Values(b);
    assert vs[i] == b[i].value;
    hide Sorted, CountUpTo, CountBelow;
    UpToInSorted(vs, i);
    BelowInSorted(vs, i);
  }
}
