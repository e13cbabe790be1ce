/**
 The token queue of the YAML scanner on values: potential simple keys point at queued tokens, insertions for them
 keep the order of all other tokens, and block starts and ends balance.
 */
module ScanQueue {
  import opened Common
  import opened YamlParse

  datatype Mark = Mark(index: nat, line: nat, column: nat)

  /** A token with the position it starts at. */
  datatype Queued = Queued(token: Token, mark: Mark)

  datatype SimpleKey = SimpleKey(possible: bool, required: bool, number: nat, mark: Mark)

  const NoKey: SimpleKey := SimpleKey(false, false, 0, Mark(0, 0, 0))

  function InsertAt<T>(s: seq<T>, p: nat, x: T): (r: seq<T>)
    requires p <= |s|
    ensures |r| == |s| + 1
  {
    s[..p] + [x] + s[p..]
  }

  /** Appending, moving the tail up by one and writing the element is an insertion behind the head. */
  lemma ShiftInserts<T>(s: seq<T>, head: nat, p: nat, x: T)
    requires head + p <= |s|
    ensures var at := head + p;
            var longer := s + [x];
            (longer[..at + 1] + longer[at..|s|])[at := x] == s[..head] + InsertAt(s[head..], p, x)
  {
  }

  // ---------------------------------------------------------------- potential simple keys

  /**
   Every potential key has the number of a queued token, which is the one it started with, and the numbers
   increase with the flow level.
   */
  ghost predicate KeysFit(keys: seq<SimpleKey>, parsed: nat, queue: seq<Queued>) {
    && (forall i :: 0 <= i < |keys| && keys[i].possible ==>
          parsed <= keys[i].number < parsed + |queue| && queue[keys[i].number - parsed].mark == keys[i].mark)
    && (forall i, j :: 0 <= i < j < |keys| && keys[i].possible && keys[j].possible ==> keys[i].number < keys[j].number)
  }

  /** `new` arises from `old` by giving up some potential keys. */
  predicate Weaker(keys: seq<SimpleKey>, now: seq<SimpleKey>) {
    |now| <= |keys| && forall i :: 0 <= i < |now| ==> now[i] == keys[i] || !now[i].possible
  }

  lemma WeakerFits(keys: seq<SimpleKey>, now: seq<SimpleKey>, parsed: nat, queue: seq<Queued>)
    requires KeysFit(keys, parsed, queue) && Weaker(keys, now)
    ensures KeysFit(now, parsed, queue)
  {
  }

  lemma AppendFits(keys: seq<SimpleKey>, parsed: nat, queue: seq<Queued>, t: Queued)
    requires KeysFit(keys, parsed, queue)
    ensures KeysFit(keys, parsed, queue + [t])
  {
  }

  /** A new potential key at the current level for the token that is appended next. */
  lemma SaveFits(keys: seq<SimpleKey>, parsed: nat, queue: seq<Queued>, k: SimpleKey, t: Queued)
    requires KeysFit(keys, parsed, queue) && keys != []
    requires k.number == parsed + |queue| && k.mark == t.mark
    ensures KeysFit(keys[|keys| - 1 := k], parsed, queue + [t])
    ensures KeysFit(keys[|keys| - 1 := k] + [NoKey], parsed, queue + [t])
  {
  }

  /** An insertion for the key of the current level leaves the other keys at their tokens. */
  lemma InsertFits(keys: seq<SimpleKey>, parsed: nat, queue: seq<Queued>, t: Queued)
    requires KeysFit(keys, parsed, queue) && keys != [] && keys[|keys| - 1].possible
    ensures var k := keys[|keys| - 1];
            && parsed <= k.number < parsed + |queue|
            && KeysFit(keys[|keys| - 1 := k.(possible := false)], parsed, InsertAt(queue, k.number - parsed, t))
  {
  }

  lemma TakeFits(keys: seq<SimpleKey>, parsed: nat, queue: seq<Queued>)
    requires KeysFit(keys, parsed, queue) && queue != []
    requires forall i :: 0 <= i < |keys| && keys[i].possible ==> keys[i].number != parsed
    ensures KeysFit(keys, parsed + 1, queue[1..])
  {
  }

  // ---------------------------------------------------------------- how the queue grows

  /** The tokens that do not stand in the text, or need not: the scanner makes them. */
  predicate Made(t: Token) {
    || t.StreamStartToken? || t.BlockSequenceStartToken? || t.BlockMappingStartToken? || t.BlockEndToken? || t.KeyToken?
  }

  predicate AllMade(ts: seq<Queued>) {
    forall i :: 0 <= i < |ts| ==> Made(ts[i].token)
  }

  /**
   The token `t` is appended, perhaps behind others that the scanner makes.  The old tokens keep their order, with one
   insertion of KEY and BLOCK-MAPPING-START at most.
   */
  ghost predicate Grown(q: seq<Queued>, r: seq<Queued>, t: Queued) {
    exists p: nat, ins, made :: p <= |q| && GrownBy(q, r, t, p, ins, made)
  }

  predicate GrownBy(q: seq<Queued>, r: seq<Queued>, t: Queued, p: nat, ins: seq<Queued>, made: seq<Queued>)
    requires p <= |q|
  {
    && r == q[..p] + ins + q[p..] + made + [t] && AllMade(made)
    && forall i :: 0 <= i < |ins| ==> ins[i].token.KeyToken? || ins[i].token.BlockMappingStartToken?
  }

  lemma AppendGrows(q: seq<Queued>, made: seq<Queued>, t: Queued)
    requires AllMade(made)
    ensures Grown(q, q + made + [t], t)
  {
    assert q[..|q|] + [] + q[|q|..] + made + [t] == q + made + [t];
    assert GrownBy(q, q + made + [t], t, |q|, [], made);
  }

  lemma InsertGrows(q: seq<Queued>, p: nat, ins: seq<Queued>, made: seq<Queued>, t: Queued)
    requires p <= |q| && AllMade(made)
    requires forall i :: 0 <= i < |ins| ==> ins[i].token.KeyToken? || ins[i].token.BlockMappingStartToken?
    ensures Grown(q, q[..p] + ins + q[p..] + made + [t], t)
  {
    assert GrownBy(q, q[..p] + ins + q[p..] + made + [t], t, p, ins, made);
  }

  /** Growing after something made has been appended is growing. */
  lemma GrownAfter(q: seq<Queued>, e: seq<Queued>, r: seq<Queued>, t: Queued)
    requires Grown(q + e, r, t) && AllMade(e)
    ensures Grown(q, r, t)
  {
    var p: nat, ins, made :| p <= |q + e| && GrownBy(q + e, r, t, p, ins, made);
    if p <= |q| {
      assert (q + e)[..p] == q[..p] && (q + e)[p..] == q[p..] + e;
      assert r == q[..p] + ins + q[p..] + (e + made) + [t];
      InsertGrows(q, p, ins, e + made, t);
    } else {
      var k := p - |q|;
      assert (q + e)[..p] == q + e[..k] && (q + e)[p..] == e[k..];
      assert r == q + (e[..k] + ins + e[k..] + made) + [t];
      AppendGrows(q, e[..k] + ins + e[k..] + made, t);
    }
  }

  // ---------------------------------------------------------------- the order of tokens

  /** All of `lex` in its order, with tokens that the scanner makes woven in. */
  ghost predicate Weaves(all: seq<Queued>, lex: seq<Queued>)
    decreases |all|
  {
    if all == [] then lex == []
    else
      var top, init := all[|all| - 1], all[..|all| - 1];
      || (lex != [] && lex[|lex| - 1] == top && Weaves(init, lex[..|lex| - 1]))
      || (Made(top.token) && Weaves(init, lex))
  }

  lemma WeaveLast(init: seq<Queued>, top: Queued, lex: seq<Queued>)
    ensures Weaves(init + [top], lex) <==>
            || (lex != [] && lex[|lex| - 1] == top && Weaves(init, lex[..|lex| - 1]))
            || (Made(top.token) && Weaves(init, lex))
  {
    assert (init + [top])[..|init|] == init;
  }

  lemma WeaveAppend(all: seq<Queued>, lex: seq<Queued>, t: Queued)
    requires Weaves(all, lex)
    ensures Weaves(all + [t], lex + [t])
  {
    hide Weaves;
    assert (lex + [t])[..|lex|] == lex;
    WeaveLast(all, t, lex + [t]);
  }

  /** Made tokens may be inserted anywhere. */
  lemma {:induction false} WeaveInsert(a: seq<Queued>, ins: seq<Queued>, b: seq<Queued>, lex: seq<Queued>)
    requires Weaves(a + b, lex) && AllMade(ins)
    ensures Weaves(a + ins + b, lex)
    decreases |b|, |ins|
  {
    hide Weaves;
    if b != [] {
      var top, init := b[|b| - 1], b[..|b| - 1];
      assert a + b == a + init + [top] && a + ins + b == a + ins + init + [top];
      WeaveLast(a + init, top, lex);
      WeaveLast(a + ins + init, top, lex);
      if Made(top.token) && Weaves(a + init, lex) {
        WeaveInsert(a, ins, init, lex);
      } else {
        WeaveInsert(a, ins, init, lex[..|lex| - 1]);
      }
    } else if ins != [] {
      var top, init := ins[|ins| - 1], ins[..|ins| - 1];
      assert a + ins + b == a + init + b + [top];
      WeaveInsert(a, init, b, lex);
      WeaveLast(a + init + b, top, lex);
    } else {
      assert a + ins + b == a + b;
    }
  }

  /** A queue that grows by a token carries that token behind those it carried before. */
  lemma GrownWeaves(q: seq<Queued>, r: seq<Queued>, lex: seq<Queued>, t: Queued)
    requires Weaves(q, lex) && Grown(q, r, t)
    ensures Weaves(r, lex + [t])
  {
    hide Weaves;
    var p: nat, ins, made :| p <= |q| && GrownBy(q, r, t, p, ins, made);
    assert q == q[..p] + q[p..];
    WeaveInsert(q[..p], ins, q[p..], lex);
    var s := q[..p] + ins + q[p..];
    assert s == s + [] && s + made == s + made + [];
    WeaveInsert(s, made, [], lex);
    WeaveAppend(s + made, lex, t);
    assert r == s + made + [t];
  }

  /** What is left without the tokens that the scanner makes, and without KEY. */
  function Plain(ts: seq<Queued>): seq<Queued> {
    if ts == [] then []
    else Plain(ts[..|ts| - 1]) + (if Made(ts[|ts| - 1].token) then [] else [ts[|ts| - 1]])
  }

  lemma {:induction false} WovenAlike(all: seq<Queued>, lex: seq<Queued>)
    requires Weaves(all, lex)
    ensures Plain(all) == Plain(lex)
    decreases |all|
  {
    if all != [] {
      var top, init := all[|all| - 1], all[..|all| - 1];
      if lex != [] && lex[|lex| - 1] == top && Weaves(init, lex[..|lex| - 1]) {
        WovenAlike(init, lex[..|lex| - 1]);
      } else {
        WovenAlike(init, lex);
      }
    }
  }

  // ---------------------------------------------------------------- block collections

  predicate OpensBlock(t: Token) {
    t.BlockSequenceStartToken? || t.BlockMappingStartToken?
  }

  function Weight(t: Queued): int {
    if OpensBlock(t.token) then 1 else if t.token.BlockEndToken? then -1 else 0
  }

  /** Block collections opened minus those closed. */
  function Depth(ts: seq<Queued>): int {
    if ts == [] then 0 else Depth(ts[..|ts| - 1]) + Weight(ts[|ts| - 1])
  }

  /** No prefix closes more than it has opened. */
  ghost predicate Balanced(ts: seq<Queued>) {
    forall k :: 0 <= k <= |ts| ==> Depth(ts[..k]) >= 0
  }

  lemma DepthAppend(ts: seq<Queued>, t: Queued)
    ensures Depth(ts + [t]) == Depth(ts) + Weight(t)
  {
    assert (ts + [t])[..|ts|] == ts;
  }

  lemma {:induction false} DepthConcat(a: seq<Queued>, b: seq<Queued>)
    ensures Depth(a + b) == Depth(a) + Depth(b)
  {
    if b == [] {
      assert a + b == a;
    } else {
      assert (a + b)[..|a + b| - 1] == a + b[..|b| - 1];
      DepthConcat(a, b[..|b| - 1]);
    }
  }

  lemma BalancedAppend(ts: seq<Queued>, t: Queued)
    requires Balanced(ts) && Depth(ts) + Weight(t) >= 0
    ensures Balanced(ts + [t]) && Depth(ts + [t]) == Depth(ts) + Weight(t)
  {
    DepthAppend(ts, t);
    forall k | 0 <= k <= |ts + [t]| ensures Depth((ts + [t])[..k]) >= 0 {
      if k <= |ts| { assert (ts + [t])[..k] == ts[..k]; } else { assert (ts + [t])[..k] == ts + [t]; }
    }
  }

  lemma DepthInsert(ts: seq<Queued>, p: nat, t: Queued)
    requires p <= |ts|
    ensures Depth(InsertAt(ts, p, t)) == Depth(ts) + Weight(t)
  {
    assert ts == ts[..p] + ts[p..];
    DepthConcat(ts[..p], ts[p..]);
    DepthAppend(ts[..p], t);
    DepthConcat(ts[..p] + [t], ts[p..]);
  }

  lemma PrefixOfInsert(ts: seq<Queued>, p: nat, t: Queued, k: nat)
    requires p < k <= |ts| + 1
    ensures InsertAt(ts, p, t)[..k] == InsertAt(ts[..k - 1], p, t)
  {
  }

  lemma BalancedInsert(ts: seq<Queued>, p: nat, t: Queued)
    requires p <= |ts| && Balanced(ts) && Weight(t) >= 0
    ensures Balanced(InsertAt(ts, p, t)) && Depth(InsertAt(ts, p, t)) == Depth(ts) + Weight(t)
  {
    hide Depth, Weight;
    var r := InsertAt(ts, p, t);
    DepthInsert(ts, p, t);
    forall k | 0 <= k <= |r| ensures Depth(r[..k]) >= 0 {
      if k <= p {
        assert r[..k] == ts[..k];
      } else {
        PrefixOfInsert(ts, p, t, k);
        DepthInsert(ts[..k - 1], p, t);
      }
    }
  }

  // ---------------------------------------------------------------- indentation

  /** The stack with the current level on top increases strictly from -1. */
  predicate IndentsFit(indents: seq<int>, indent: int) {
    && (if indents == [] then indent == -1 else indents[0] == -1 && indents[|indents| - 1] < indent)
    && forall i, j :: 0 <= i < j < |indents| ==> indents[i] < indents[j]
  }

  lemma PushIndent(indents: seq<int>, indent: int, column: int)
    requires IndentsFit(indents, indent) && indent < column
    ensures IndentsFit(indents + [indent], column)
  {
  }

  lemma PopIndent(indents: seq<int>, indent: int)
    requires IndentsFit(indents, indent) && indents != []
    ensures IndentsFit(indents[..|indents| - 1], indents[|indents| - 1])
  {
  }

  /** Some levels at the top have been closed, all of them deeper than the column. */
  predicate Unrolling(indents: seq<int>, indent: int, column: int, now: seq<int>, level: int) {
    && now <= indents && level == (if now == indents then indent else indents[|now|])
    && (now != indents ==> indent > column)
    && forall i :: |now| < i < |indents| ==> indents[i] > column
  }

  /** Exactly the levels deeper than the column have been closed. */
  predicate UnrolledTo(indents: seq<int>, indent: int, column: int, now: seq<int>, level: int) {
    Unrolling(indents, indent, column, now, level) && level <= column
  }

  /** After unrolling, the current level is the column exactly if the column was one of the levels. */
  lemma UnrolledMeets(indents: seq<int>, indent: int, column: int, now: seq<int>, level: int)
    requires IndentsFit(indents, indent) && UnrolledTo(indents, indent, column, now, level)
    ensures level == column <==> column == indent || column in indents
  {
    forall i | 0 <= i < |indents| && indents[i] == column ensures level == column {
    }
  }

  lemma BottomIndent(indents: seq<int>, indent: int)
    requires IndentsFit(indents, indent)
    ensures indent >= -1 && (indent == -1 <==> indents == [])
  {
  }

  // ---------------------------------------------------------------- the scanner's state

  /** What the fetchers keep: `taken` are the tokens already handed out. */
  ghost predicate StateFits(taken: seq<Queued>, queue: seq<Queued>, keys: seq<SimpleKey>, flowLevel: nat,
                            indents: seq<int>, indent: int) {
    && |keys| == flowLevel + 1 && KeysFit(keys, |taken|, queue)
    && IndentsFit(indents, indent)
    && Balanced(taken + queue) && Depth(taken + queue) == |indents|
  }

  /** One more token at the end that opens and closes nothing. */
  lemma StateAppend(taken: seq<Queued>, queue: seq<Queued>, keys: seq<SimpleKey>, now: seq<SimpleKey>,
                    flowLevel: nat, level: nat, indents: seq<int>, indent: int, t: Queued)
    requires StateFits(taken, queue, keys, flowLevel, indents, indent) && Weight(t) == 0
    requires Weaker(keys, now) && |now| == level + 1
    ensures StateFits(taken, queue + [t], now, level, indents, indent)
  {
    hide KeysFit, Balanced, Depth, IndentsFit, Weight;
    WeakerFits(keys, now, |taken|, queue);
    AppendFits(now, |taken|, queue, t);
    BalancedAppend(taken + queue, t);
    assert taken + (queue + [t]) == taken + queue + [t];
  }

  /** One more token that a new potential key points at; a flow collection opens a new level as well. */
  lemma StateSave(taken: seq<Queued>, queue: seq<Queued>, keys: seq<SimpleKey>, flowLevel: nat,
                  indents: seq<int>, indent: int, k: SimpleKey, t: Queued)
    requires StateFits(taken, queue, keys, flowLevel, indents, indent) && Weight(t) == 0
    requires k.number == |taken| + |queue| && k.mark == t.mark
    ensures StateFits(taken, queue + [t], keys[flowLevel := k], flowLevel, indents, indent)
    ensures StateFits(taken, queue + [t], keys[flowLevel := k] + [NoKey], flowLevel + 1, indents, indent)
  {
    hide KeysFit, Balanced, Depth, IndentsFit, Weight;
    SaveFits(keys, |taken|, queue, k, t);
    BalancedAppend(taken + queue, t);
    assert taken + (queue + [t]) == taken + queue + [t];
  }

  /** A new level without a key to save. */
  lemma StateNest(taken: seq<Queued>, queue: seq<Queued>, keys: seq<SimpleKey>, flowLevel: nat,
                  indents: seq<int>, indent: int)
    requires StateFits(taken, queue, keys, flowLevel, indents, indent)
    ensures StateFits(taken, queue, keys + [NoKey], flowLevel + 1, indents, indent)
  {
  }

  /** A block collection opens at the end, or closes. */
  lemma StateRoll(taken: seq<Queued>, queue: seq<Queued>, keys: seq<SimpleKey>, flowLevel: nat,
                  indents: seq<int>, indent: int, column: nat, t: Queued)
    requires StateFits(taken, queue, keys, flowLevel, indents, indent) && indent < column && Weight(t) == 1
    ensures StateFits(taken, queue + [t], keys, flowLevel, indents + [indent], column)
  {
    hide KeysFit, Balanced, Depth, Weight;
    AppendFits(keys, |taken|, queue, t);
    BalancedAppend(taken + queue, t);
    PushIndent(indents, indent, column);
    assert taken + (queue + [t]) == taken + queue + [t];
  }

  lemma StateUnroll(taken: seq<Queued>, queue: seq<Queued>, keys: seq<SimpleKey>, flowLevel: nat,
                    indents: seq<int>, indent: int, t: Queued)
    requires StateFits(taken, queue, keys, flowLevel, indents, indent) && indents != [] && Weight(t) == -1
    ensures StateFits(taken, queue + [t], keys, flowLevel, indents[..|indents| - 1], indents[|indents| - 1])
  {
    hide KeysFit, Balanced, Depth, Weight;
    AppendFits(keys, |taken|, queue, t);
    BalancedAppend(taken + queue, t);
    PopIndent(indents, indent);
    assert taken + (queue + [t]) == taken + queue + [t];
  }

  /** KEY goes in front of the token its potential key points at. */
  lemma StateKey(taken: seq<Queued>, queue: seq<Queued>, keys: seq<SimpleKey>, flowLevel: nat,
                 indents: seq<int>, indent: int, t: Queued)
    requires StateFits(taken, queue, keys, flowLevel, indents, indent) && keys[flowLevel].possible
    requires Weight(t) == 0 && t.mark == keys[flowLevel].mark
    ensures var p := keys[flowLevel].number - |taken|;
            && 0 <= p < |queue| && queue[p].mark == keys[flowLevel].mark
            && StateFits(taken, InsertAt(queue, p, t), keys[flowLevel := keys[flowLevel].(possible := false)],
                         flowLevel, indents, indent)
            && InsertAt(taken + queue, keys[flowLevel].number, t) == taken + InsertAt(queue, p, t)
  {
    hide Balanced, Depth, IndentsFit, Weight;
    var k := keys[flowLevel];
    InsertFits(keys, |taken|, queue, t);
    BalancedInsert(taken + queue, k.number, t);
    assert InsertAt(taken + queue, k.number, t) == taken + InsertAt(queue, k.number - |taken|, t);
  }

  /** BLOCK-MAPPING-START goes in front of that KEY. */
  lemma StateOpenKey(taken: seq<Queued>, queue: seq<Queued>, keys: seq<SimpleKey>, flowLevel: nat,
                     indents: seq<int>, indent: int, p: nat, column: nat, t: Queued)
    requires StateFits(taken, queue, keys, flowLevel, indents, indent) && p < |queue|
    requires Weight(t) == 1 && indent < column
    requires forall i :: 0 <= i < |keys| && keys[i].possible ==> keys[i].number < |taken| + p
    ensures StateFits(taken, InsertAt(queue, p, t), keys, flowLevel, indents + [indent], column)
  {
    hide Balanced, Depth, Weight;
    BalancedInsert(taken + queue, |taken| + p, t);
    PushIndent(indents, indent, column);
    assert InsertAt(taken + queue, |taken| + p, t) == taken + InsertAt(queue, p, t);
  }

  /** The parser takes the head, which no potential key points at. */
  lemma StateTake(taken: seq<Queued>, queue: seq<Queued>, keys: seq<SimpleKey>, flowLevel: nat,
                  indents: seq<int>, indent: int)
    requires StateFits(taken, queue, keys, flowLevel, indents, indent) && queue != []
    requires forall i :: 0 <= i < |keys| && keys[i].possible ==> keys[i].number != |taken|
    ensures StateFits(taken + [queue[0]], queue[1..], keys, flowLevel, indents, indent)
  {
    hide Balanced, Depth, IndentsFit;
    TakeFits(keys, |taken|, queue);
    assert taken + [queue[0]] + queue[1..] == taken + queue;
  }
}
