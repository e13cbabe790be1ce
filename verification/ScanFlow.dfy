/**
 Flow collections as they are written, with or without '?' in front of keys, and what the scanner makes of them: exactly
 the tokens of the grammar, with every KEY in its place.
 */
module ScanFlow {
  import opened Common
  import opened YamlEvents
  import opened YamlParse
  import opened YamlText
  import opened YamlStreamParse
  import opened YamlStreamExact
  import opened ScanQueue
  import opened ScanSteps

  // ---------------------------------------------------------------- how flow texts are written

  /** The tokens that are written for a node; `bare` are the keys that are written without '?'. */
  function Written(t: Text, bare: Text -> bool): seq<Token> {
    match t
    case AliasText(name) => [AliasToken(name)]
    case ScalarText(p, v, s) => PropsTokens(p) + [ScalarToken(v, s)]
    case BareText(p) => PropsTokens(p)
    case FlowSequenceText(p, items) => PropsTokens(p) + ([FlowSequenceStartToken] + WrittenItems(items, true, bare))
    case FlowMappingText(p, pairs) => PropsTokens(p) + ([FlowMappingStartToken] + WrittenPairs(pairs, true, bare))
    case _ => []
  }

  /** A key that is there and has a value may do without '?'. */
  predicate IsBare(k: Place, v: Value, bare: Text -> bool) {
    k.Present? && v.HasValue? && bare(k.text)
  }

  function WrittenKey(k: Place, v: Value, bare: Text -> bool): seq<Token> {
    (if IsBare(k, v, bare) then [] else [KeyToken]) + (if k.Present? then Written(k.text, bare) else [])
  }

  function WrittenValue(v: Value, bare: Text -> bool): seq<Token> {
    if v.NoValue? then [] else [ValueToken] + (if v.place.Present? then Written(v.place.text, bare) else [])
  }

  function WrittenItems(items: FlowItems, first: bool, bare: Text -> bool): seq<Token> {
    match items
    case NoFlowItems(comma) => Comma(first || !comma) + [FlowSequenceEndToken]
    case FlowItem(t, rest) => Comma(first) + (Written(t, bare) + WrittenItems(rest, false, bare))
    case FlowSinglePair(k, v, rest) =>
      Comma(first) + (WrittenKey(k, v, bare) + (WrittenValue(v, bare) + WrittenItems(rest, false, bare)))
  }

  function WrittenPairs(pairs: FlowPairs, first: bool, bare: Text -> bool): seq<Token> {
    match pairs
    case NoFlowPairs(comma) => Comma(first || !comma) + [FlowMappingEndToken]
    case FlowKeyOnly(t, rest) => Comma(first) + (Written(t, bare) + WrittenPairs(rest, false, bare))
    case FlowPair(k, v, rest) =>
      Comma(first) + (WrittenKey(k, v, bare) + (WrittenValue(v, bare) + WrittenPairs(rest, false, bare)))
  }

  /** What can stand in a flow collection: no block collections and no block scalars; a bare node has a property. */
  predicate InFlow(t: Text) {
    match t
    case AliasText(_) => true
    case ScalarText(_, _, s) => !s.LiteralStyle? && !s.FoldedStyle?
    case BareText(p) => PropsTokens(p) != []
    case FlowSequenceText(_, items) => ItemsInFlow(items)
    case FlowMappingText(_, pairs) => PairsInFlow(pairs)
    case _ => false
  }

  predicate PlaceInFlow(p: Place) {
    p.Present? ==> InFlow(p.text)
  }

  predicate ValueInFlow(v: Value) {
    v.HasValue? ==> PlaceInFlow(v.place)
  }

  predicate ItemsInFlow(items: FlowItems) {
    match items
    case NoFlowItems(_) => true
    case FlowItem(t, rest) => InFlow(t) && ItemsInFlow(rest)
    case FlowSinglePair(k, v, rest) => PlaceInFlow(k) && ValueInFlow(v) && ItemsInFlow(rest)
  }

  predicate PairsInFlow(pairs: FlowPairs) {
    match pairs
    case NoFlowPairs(_) => true
    case FlowKeyOnly(t, rest) => InFlow(t) && PairsInFlow(rest)
    case FlowPair(k, v, rest) => PlaceInFlow(k) && ValueInFlow(v) && PairsInFlow(rest)
  }

  // ---------------------------------------------------------------- lexemes in one line

  /** The lexemes have these tokens, and stand in one line within 1024 characters. */
  predicate Lay(ls: seq<Lexeme>, ts: seq<Token>, line: nat, from: nat) {
    && |ls| == |ts|
    && forall i :: 0 <= i < |ls| ==>
         && ls[i].token == ts[i] && !ls[i].blank
         && ls[i].start.line == line && from <= ls[i].start.index <= from + 1024
  }

  /** No potential key goes stale there. */
  predicate KeysLast(keys: seq<SimpleKey>, line: nat, from: nat) {
    forall i :: 0 <= i < |keys| && keys[i].possible ==> keys[i].mark.line == line && keys[i].mark.index >= from
  }

  lemma LayConcat(ls: seq<Lexeme>, a: seq<Token>, b: seq<Token>, line: nat, from: nat)
    requires Lay(ls, a + b, line, from)
    ensures Lay(ls[..|a|], a, line, from) && Lay(ls[|a|..], b, line, from) && ls == ls[..|a|] + ls[|a|..]
  {
    forall i | 0 <= i < |a| ensures (a + b)[i] == a[i] {
    }
    forall i | 0 <= i < |b| ensures ls[|a|..][i].token == b[i] {
      assert (a + b)[|a| + i] == b[i];
    }
  }

  /** The tokens without their marks. */
  function Plainly(ts: seq<Queued>): (r: seq<Token>)
    ensures |r| == |ts| && forall i :: 0 <= i < |ts| ==> r[i] == ts[i].token
  {
    seq(|ts|, i requires 0 <= i < |ts| => ts[i].token)
  }

  // ---------------------------------------------------------------- one lexeme in a flow collection

  /** Within flow collections, with a key remembered for each level. */
  predicate Inside(v: View, line: nat, from: nat) {
    && v.flowLevel > 0 && |v.keys| == v.flowLevel + 1 && KeysLast(v.keys, line, from)
    && forall i :: 0 <= i < |v.keys| && v.keys[i].possible ==> v.keys[i].number < |v.tokens|
  }

  predicate OneLay(l: Lexeme, line: nat, from: nat) {
    !l.blank && l.start.line == line && from <= l.start.index <= from + 1024
  }

  lemma PreparedInFlow(v: View, l: Lexeme, line: nat, from: nat)
    requires Inside(v, line, from) && OneLay(l, line, from)
    ensures Prepared(v, l) == v.(mark := l.start)
  {
    FreshAlike(v.keys, l.start, line, from);
  }

  lemma FreshAlike(keys: seq<SimpleKey>, m: Mark, line: nat, from: nat)
    requires KeysLast(keys, line, from) && m.line == line && m.index <= from + 1024
    ensures Fresh(keys, m) == keys
  {
  }

  /** The key of a node that begins here. */
  function KeyFor(v: View, m: Mark): SimpleKey {
    SimpleKey(true, false, |v.tokens|, m)
  }

  /** The potential keys behind a node that begins at `m`: it is one itself, if a key is allowed there. */
  function KeysBehind(v: View, m: Mark): seq<SimpleKey> {
    if v.allowed then SetTop(v.keys, KeyFor(v, m)) else v.keys
  }

  /** What a piece of text does to the view: the tokens, the keys, whether a key is allowed, and the level. */
  predicate Comes(v: View, w: View, ts: seq<Token>, keys: seq<SimpleKey>, allowed: bool, flowLevel: nat) {
    && Plainly(w.tokens) == Plainly(v.tokens) + ts && w.keys == keys && w.allowed == allowed
    && w.flowLevel == flowLevel && w.indents == v.indents && w.indent == v.indent
  }

  lemma ContentStep(v: View, l: Lexeme, line: nat, from: nat)
    requires Inside(v, line, from) && OneLay(l, line, from) && IsContent(l.token) && !IsBlockScalar(l.token)
    ensures Comes(v, Fetched(v, l), [l.token], KeysBehind(v, l.start), false, v.flowLevel)
  {
    hide Prepared;
    PreparedInFlow(v, l, line, from);
  }

  lemma OpenStep(v: View, l: Lexeme, line: nat, from: nat)
    requires Inside(v, line, from) && OneLay(l, line, from)
    requires l.token.FlowSequenceStartToken? || l.token.FlowMappingStartToken?
    ensures Comes(v, Fetched(v, l), [l.token], KeysBehind(v, l.start) + [NoKey], true, v.flowLevel + 1)
  {
    hide Prepared;
    PreparedInFlow(v, l, line, from);
  }

  lemma CloseStep(v: View, l: Lexeme, line: nat, from: nat)
    requires Inside(v, line, from) && OneLay(l, line, from) && EndsFlow(l.token)
    ensures Comes(v, Fetched(v, l), [l.token], v.keys[..v.flowLevel], false, v.flowLevel - 1)
  {
    hide Prepared;
    PreparedInFlow(v, l, line, from);
  }

  lemma CommaStep(v: View, l: Lexeme, line: nat, from: nat)
    requires Inside(v, line, from) && OneLay(l, line, from) && l.token.FlowEntryToken?
    ensures Comes(v, Fetched(v, l), [l.token], SetTop(v.keys, TopKey(v.keys).(possible := false)), true, v.flowLevel)
  {
    hide Prepared;
    PreparedInFlow(v, l, line, from);
  }

  lemma KeyStep(v: View, l: Lexeme, line: nat, from: nat)
    requires Inside(v, line, from) && OneLay(l, line, from) && l.token.KeyToken?
    ensures Comes(v, Fetched(v, l), [l.token], SetTop(v.keys, TopKey(v.keys).(possible := false)), false, v.flowLevel)
  {
    hide Prepared;
    PreparedInFlow(v, l, line, from);
  }

  /** VALUE: behind a potential key, KEY goes in front of the token that the key began with. */
  lemma ValueStep(v: View, l: Lexeme, line: nat, from: nat)
    requires Inside(v, line, from) && OneLay(l, line, from) && l.token.ValueToken?
    ensures var k, ts, w := TopKey(v.keys), Plainly(v.tokens), Fetched(v, l);
            && w.keys == SetTop(v.keys, k.(possible := false)) && !w.allowed && w.flowLevel == v.flowLevel
            && w.indents == v.indents && w.indent == v.indent
            && Plainly(w.tokens) == (if k.possible then ts[..k.number] + [KeyToken] + ts[k.number..] else ts)
                                    + [ValueToken]
  {
    hide Prepared;
    PreparedInFlow(v, l, line, from);
  }

  // ---------------------------------------------------------------- runs of lexemes

  lemma {:induction false} ScanAllConcat(v: View, a: seq<Lexeme>, b: seq<Lexeme>)
    ensures ScanAll(v, a + b) == ScanAll(ScanAll(v, a), b)
    decreases |b|
  {
    hide Fetched;
    if b == [] {
      assert a + b == a;
    } else {
      assert (a + b)[..|a + b| - 1] == a + b[..|b| - 1];
      ScanAllConcat(v, a, b[..|b| - 1]);
    }
  }

  lemma ScanNone(v: View)
    ensures ScanAll(v, []) == v
  {
  }

  lemma ScanOne(v: View, l: Lexeme)
    ensures ScanAll(v, [l]) == Fetched(v, l)
  {
    hide Fetched;
    assert [l][..0] == [];
    ScanNone(v);
  }

  /** Two parts. */
  lemma ScanTwo(v: View, ls: seq<Lexeme>, a: seq<Token>, b: seq<Token>, line: nat, from: nat)
    requires Lay(ls, a + b, line, from)
    ensures |ls| == |a| + |b| && Lay(ls[..|a|], a, line, from) && Lay(ls[|a|..], b, line, from)
    ensures ScanAll(v, ls) == ScanAll(ScanAll(v, ls[..|a|]), ls[|a|..])
  {
    hide ScanAll;
    LayConcat(ls, a, b, line, from);
    ScanAllConcat(v, ls[..|a|], ls[|a|..]);
  }

  /** The first lexeme, and the others. */
  lemma ScanFirst(v: View, ls: seq<Lexeme>, t: Token, ts: seq<Token>, line: nat, from: nat)
    requires Lay(ls, [t] + ts, line, from)
    ensures ls != [] && ls[0].token == t && OneLay(ls[0], line, from) && Lay(ls[1..], ts, line, from)
    ensures ScanAll(v, ls) == ScanAll(Fetched(v, ls[0]), ls[1..])
  {
    hide Fetched, ScanAll;
    ScanTwo(v, ls, [t], ts, line, from);
    assert ls[..1] == [ls[0]] && ([t] + ts)[0] == t;
    ScanOne(v, ls[0]);
  }

  /** What is in front is the same, and the tokens are added; only the key of the current level may be another one. */
  predicate Goes(v: View, w: View, ts: seq<Token>, line: nat, from: nat) {
    && Plainly(w.tokens) == Plainly(v.tokens) + ts && w.flowLevel == v.flowLevel
    && w.indents == v.indents && w.indent == v.indent
    && Inside(v, line, from) && Inside(w, line, from) && w.keys[..w.flowLevel] == v.keys[..v.flowLevel]
  }

  lemma GoesOn(v: View, u: View, w: View, a: seq<Token>, b: seq<Token>, line: nat, from: nat)
    requires Goes(v, u, a, line, from) && Goes(u, w, b, line, from)
    ensures Goes(v, w, a + b, line, from)
  {
    assert Plainly(v.tokens) + a + b == Plainly(v.tokens) + (a + b);
  }

  /** A node, or the beginning of one, that has saved its key if one is allowed. */
  predicate Noted(v: View, w: View, ts: seq<Token>, m: Mark) {
    Comes(v, w, ts, KeysBehind(v, m), false, v.flowLevel)
  }

  lemma NotedGoes(v: View, w: View, ts: seq<Token>, m: Mark, line: nat, from: nat)
    requires Noted(v, w, ts, m) && Inside(v, line, from) && ts != [] && m.line == line && m.index >= from
    ensures Goes(v, w, ts, line, from) && !w.allowed
    ensures v.allowed ==> TopKey(w.keys) == KeyFor(v, m)
    ensures !v.allowed ==> w.keys == v.keys
  {
    assert |w.tokens| == |v.tokens| + |ts|;
  }

  /** Behind a part that has noted its key, a part that notes nothing. */
  lemma NotedThen(v: View, u: View, w: View, a: seq<Token>, b: seq<Token>, m: Mark, n: Mark)
    requires Noted(v, u, a, m) && Noted(u, w, b, n)
    ensures Noted(v, w, a + b, m)
  {
    assert Plainly(v.tokens) + a + b == Plainly(v.tokens) + (a + b);
  }

  // ---------------------------------------------------------------- nodes

  lemma PropsAreContent(p: Props)
    ensures |PropsTokens(p)| <= 2
    ensures forall i :: 0 <= i < |PropsTokens(p)| ==> IsContent(PropsTokens(p)[i]) && !IsBlockScalar(PropsTokens(p)[i])
  {
  }

  lemma ContentScanned(v: View, t: Token, ls: seq<Lexeme>, line: nat, from: nat)
    requires Inside(v, line, from) && Lay(ls, [t], line, from) && IsContent(t) && !IsBlockScalar(t)
    ensures ls != [] && OneLay(ls[0], line, from) && Noted(v, ScanAll(v, ls), [t], ls[0].start)
  {
    hide Inside, Fetched, Comes, KeysBehind;
    assert ls == [ls[0]] && ls[0].token == t;
    ScanOne(v, ls[0]);
    ContentStep(v, ls[0], line, from);
  }

  lemma PropsScanned(v: View, p: Props, ls: seq<Lexeme>, line: nat, from: nat)
    requires Inside(v, line, from) && Lay(ls, PropsTokens(p), line, from) && PropsTokens(p) != []
    ensures ls != [] && OneLay(ls[0], line, from) && Noted(v, ScanAll(v, ls), PropsTokens(p), ls[0].start)
  {
    hide Inside, ScanAll, Fetched, Noted, PropsTokens;
    var ts := PropsTokens(p);
    PropsAreContent(p);
    if |ts| == 1 {
      assert ts == [ts[0]];
      ContentScanned(v, ts[0], ls, line, from);
    } else {
      assert ts == [ts[0]] + [ts[1]];
      ScanTwo(v, ls, [ts[0]], [ts[1]], line, from);
      ContentScanned(v, ts[0], ls[..1], line, from);
      var u := ScanAll(v, ls[..1]);
      NotedGoes(v, u, [ts[0]], ls[0].start, line, from);
      ContentScanned(u, ts[1], ls[1..], line, from);
      NotedThen(v, u, ScanAll(v, ls), [ts[0]], [ts[1]], ls[0].start, ls[1].start);
    }
  }

  /** What stands behind the properties of a node, as it is written and as tokens. */
  function WrittenContent(t: Text, bare: Text -> bool): seq<Token> {
    match t
    case AliasText(name) => [AliasToken(name)]
    case ScalarText(_, v, s) => [ScalarToken(v, s)]
    case FlowSequenceText(_, items) => [FlowSequenceStartToken] + WrittenItems(items, true, bare)
    case FlowMappingText(_, pairs) => [FlowMappingStartToken] + WrittenPairs(pairs, true, bare)
    case _ => []
  }

  function ContentTokens(t: Text): seq<Token> {
    match t
    case AliasText(name) => [AliasToken(name)]
    case ScalarText(_, v, s) => [ScalarToken(v, s)]
    case FlowSequenceText(_, items) => [FlowSequenceStartToken] + FlowItemsTokens(items, true)
    case FlowMappingText(_, pairs) => [FlowMappingStartToken] + FlowPairsTokens(pairs, true)
    case _ => []
  }

  function PropsOf(t: Text): seq<Token> {
    if t.AliasText? then [] else PropsTokens(t.props)
  }

  lemma NodeParts(t: Text, bare: Text -> bool)
    requires InFlow(t)
    ensures Written(t, bare) == PropsOf(t) + WrittenContent(t, bare) && Tokens(t) == PropsOf(t) + ContentTokens(t)
    ensures WrittenContent(t, bare) == [] <==> t.BareText?
    ensures ContentTokens(t) == [] <==> t.BareText?
    ensures t.BareText? ==> PropsOf(t) != []
    ensures t.AliasText? ==> PropsOf(t) == []
  {
    hide WrittenItems, WrittenPairs, FlowItemsTokens, FlowPairsTokens, PropsTokens;
  }

  /** A node is scanned to its tokens, and is a potential key if one may start where it begins. */
  lemma {:induction false} NodeScanned(v: View, t: Text, ls: seq<Lexeme>, bare: Text -> bool, line: nat, from: nat)
    requires Inside(v, line, from) && InFlow(t) && Lay(ls, Written(t, bare), line, from)
    ensures ls != [] && OneLay(ls[0], line, from) && Tokens(t) != []
    ensures Noted(v, ScanAll(v, ls), Tokens(t), ls[0].start)
    decreases t, 2
  {
    hide Inside, ScanAll, Fetched, Noted, InFlow, Written, Tokens, PropsTokens, WrittenContent, ContentTokens, Lay,
      Goes;
    NodeParts(t, bare);
    var p, c := PropsOf(t), WrittenContent(t, bare);
    if p == [] {
      assert [] + c == c && [] + ContentTokens(t) == ContentTokens(t);
      BareContentScanned(v, t, ls, bare, line, from);
    } else {
      ScanTwo(v, ls, p, c, line, from);
      PropsScanned(v, t.props, ls[..|p|], line, from);
      assert ls[..|p|][0] == ls[0];
      var u := ScanAll(v, ls[..|p|]);
      if c == [] {
        ScanNone(u);
        assert ls[|p|..] == [] && p + [] == p;
      } else {
        NotedGoes(v, u, p, ls[0].start, line, from);
        InsideBehind(v, u, p, line, from);
        BareContentScanned(u, t, ls[|p|..], bare, line, from);
        NotedThen(v, u, ScanAll(v, ls), p, ContentTokens(t), ls[0].start, ls[|p|].start);
      }
    }
  }

  lemma InsideBehind(v: View, u: View, ts: seq<Token>, line: nat, from: nat)
    requires Goes(v, u, ts, line, from)
    ensures Inside(u, line, from) && u.flowLevel == v.flowLevel
  {
  }

  lemma {:induction false} BareContentScanned(v: View, t: Text, ls: seq<Lexeme>, bare: Text -> bool, line: nat,
                                              from: nat)
    requires Inside(v, line, from) && InFlow(t) && Lay(ls, WrittenContent(t, bare), line, from) && !t.BareText?
    ensures ls != [] && OneLay(ls[0], line, from) && Noted(v, ScanAll(v, ls), ContentTokens(t), ls[0].start)
    decreases t, 1
  {
    hide Inside, ScanAll, Fetched, Noted, Lay, FlowItemsTokens, FlowPairsTokens, WrittenItems, WrittenPairs, Goes;
    match t
    case AliasText(name) => ContentScanned(v, AliasToken(name), ls, line, from);
    case ScalarText(_, value, s) => ContentScanned(v, ScalarToken(value, s), ls, line, from);
    case FlowSequenceText(_, items) =>
      Bracket(v, FlowSequenceStartToken, ls, WrittenItems(items, true, bare), line, from);
      ItemsScanned(Fetched(v, ls[0]), items, true, ls[1..], bare, line, from);
      Bracketed(v, FlowSequenceStartToken, ls, FlowItemsTokens(items, true), line, from);
    case FlowMappingText(_, pairs) =>
      Bracket(v, FlowMappingStartToken, ls, WrittenPairs(pairs, true, bare), line, from);
      PairsScanned(Fetched(v, ls[0]), pairs, true, ls[1..], bare, line, from);
      Bracketed(v, FlowMappingStartToken, ls, FlowPairsTokens(pairs, true), line, from);
  }

  /** The opening bracket. */
  lemma Bracket(v: View, t: Token, ls: seq<Lexeme>, ts: seq<Token>, line: nat, from: nat)
    requires Inside(v, line, from) && Lay(ls, [t] + ts, line, from)
    requires t.FlowSequenceStartToken? || t.FlowMappingStartToken?
    ensures ls != [] && OneLay(ls[0], line, from) && Lay(ls[1..], ts, line, from) && ls[0].token == t
    ensures ScanAll(v, ls) == ScanAll(Fetched(v, ls[0]), ls[1..])
    ensures Comes(v, Fetched(v, ls[0]), [t], KeysBehind(v, ls[0].start) + [NoKey], true, v.flowLevel + 1)
    ensures Inside(Fetched(v, ls[0]), line, from)
  {
    hide Fetched, ScanAll;
    ScanFirst(v, ls, t, ts, line, from);
    OpenStep(v, ls[0], line, from);
    assert |Fetched(v, ls[0]).tokens| == |v.tokens| + 1;
  }

  lemma Bracketed(v: View, t: Token, ls: seq<Lexeme>, ts: seq<Token>, line: nat, from: nat)
    requires ls != [] && Inside(v, line, from)
    requires Comes(v, Fetched(v, ls[0]), [t], KeysBehind(v, ls[0].start) + [NoKey], true, v.flowLevel + 1)
    requires ScanAll(v, ls) == ScanAll(Fetched(v, ls[0]), ls[1..])
    requires Left(Fetched(v, ls[0]), ScanAll(v, ls), ts)
    ensures Noted(v, ScanAll(v, ls), [t] + ts, ls[0].start)
  {
    hide Fetched, ScanAll, KeysBehind, Inside;
    InsideKeys(v, line, from);
    var ks := KeysBehind(v, ls[0].start);
    assert |ks| == v.flowLevel + 1 by { KeysBehindLength(v, ls[0].start); }
    assert (ks + [NoKey])[..|ks|] == ks;
    assert Plainly(v.tokens) + [t] + ts == Plainly(v.tokens) + ([t] + ts);
  }

  lemma KeysBehindLength(v: View, m: Mark)
    ensures |KeysBehind(v, m)| == |v.keys|
  {
  }

  /** A collection has been closed: its level is gone. */
  predicate Left(v: View, w: View, ts: seq<Token>)
    requires v.flowLevel > 0 && |v.keys| == v.flowLevel + 1
  {
    Comes(v, w, ts, v.keys[..v.flowLevel], false, v.flowLevel - 1)
  }

  // ---------------------------------------------------------------- entries

  lemma GoesLeft(v: View, u: View, w: View, a: seq<Token>, b: seq<Token>, line: nat, from: nat)
    requires Goes(v, u, a, line, from) && u.flowLevel > 0 && |u.keys| == u.flowLevel + 1 && Left(u, w, b)
    ensures v.flowLevel > 0 && |v.keys| == v.flowLevel + 1 && Left(v, w, a + b)
  {
    assert Plainly(v.tokens) + a + b == Plainly(v.tokens) + (a + b);
  }

  lemma InsideKeys(v: View, line: nat, from: nat)
    requires Inside(v, line, from)
    ensures v.flowLevel > 0 && |v.keys| == v.flowLevel + 1
  {
  }

  /** The comma in front of an entry, or nothing. */
  lemma CommaScanned(v: View, first: bool, ls: seq<Lexeme>, ts: seq<Token>, line: nat, from: nat) returns (u: View)
    requires Inside(v, line, from) && Lay(ls, Comma(first) + ts, line, from)
    ensures var k := |Comma(first)|;
            && k <= |ls| && Lay(ls[k..], ts, line, from) && ScanAll(v, ls) == ScanAll(u, ls[k..])
    ensures Goes(v, u, Comma(first), line, from) && Inside(u, line, from) && (v.allowed || !first ==> u.allowed)
  {
    hide Fetched, ScanAll;
    if first {
      assert [] + ts == ts && ls[0..] == ls && Plainly(v.tokens) + [] == Plainly(v.tokens);
      u := v;
    } else {
      ScanFirst(v, ls, FlowEntryToken, ts, line, from);
      CommaStep(v, ls[0], line, from);
      u := Fetched(v, ls[0]);
      assert |u.tokens| == |v.tokens| + 1;
    }
  }

  lemma NodeGoes(v: View, t: Text, ls: seq<Lexeme>, bare: Text -> bool, line: nat, from: nat)
    requires Inside(v, line, from) && InFlow(t) && Lay(ls, Written(t, bare), line, from)
    requires ls != [] && OneLay(ls[0], line, from) && Tokens(t) != []
    requires Noted(v, ScanAll(v, ls), Tokens(t), ls[0].start)
    ensures var w := ScanAll(v, ls);
            && Goes(v, w, Tokens(t), line, from) && Inside(w, line, from) && !w.allowed
            && (!v.allowed ==> w.keys == v.keys)
  {
    hide Inside, ScanAll, Fetched, Noted;
    NotedGoes(v, ScanAll(v, ls), Tokens(t), ls[0].start, line, from);
    InsideBehind(v, ScanAll(v, ls), Tokens(t), line, from);
  }

  /** Where no key may start: a node or nothing. */
  lemma {:induction false} PlaceScanned(v: View, p: Place, ls: seq<Lexeme>, bare: Text -> bool, line: nat, from: nat)
    requires Inside(v, line, from) && PlaceInFlow(p) && !v.allowed
    requires Lay(ls, if p.Present? then Written(p.text, bare) else [], line, from)
    ensures var w := ScanAll(v, ls);
            Goes(v, w, PlaceTokens(p), line, from) && Inside(w, line, from) && !w.allowed && w.keys == v.keys
    decreases p, 3
  {
    hide ScanAll, Noted, Tokens, Written, InFlow, Inside;
    if p.Present? {
      NodeScanned(v, p.text, ls, bare, line, from);
      NodeGoes(v, p.text, ls, bare, line, from);
    } else {
      assert ls == [] && Plainly(v.tokens) + [] == Plainly(v.tokens);
      ScanNone(v);
    }
  }

  /** The colon behind a potential key: KEY goes in front of the key. */
  lemma ColonScanned(u: View, x: View, l: Lexeme, ts: seq<Token>, m: Mark, line: nat, from: nat)
    requires Inside(u, line, from) && u.allowed && Noted(u, x, ts, m) && ts != [] && m.line == line && m.index >= from
    requires OneLay(l, line, from) && l.token.ValueToken?
    ensures var w := Fetched(x, l);
            && Goes(u, w, [KeyToken] + (ts + [ValueToken]), line, from) && Inside(w, line, from) && !w.allowed
  {
    hide Fetched;
    NotedGoes(u, x, ts, m, line, from);
    ValueStep(x, l, line, from);
    var p := Plainly(u.tokens);
    var n := |u.tokens|;
    assert (p + ts)[..n] == p && (p + ts)[n..] == ts;
    assert p + [KeyToken] + ts + [ValueToken] == p + ([KeyToken] + (ts + [ValueToken]));
    assert |Fetched(x, l).tokens| == |Plainly(Fetched(x, l).tokens)|;
  }

  /** A key without '?', its colon and its value. */
  lemma {:induction false} BareEntryScanned(u: View, k: Text, ls: seq<Lexeme>, ts: seq<Token>, bare: Text -> bool,
                                            line: nat, from: nat) returns (w: View)
    requires Inside(u, line, from) && u.allowed && InFlow(k)
    requires Lay(ls, Written(k, bare) + ([ValueToken] + ts), line, from)
    ensures var n := |Written(k, bare)| + 1;
            && n <= |ls| && Lay(ls[n..], ts, line, from) && ScanAll(u, ls) == ScanAll(w, ls[n..])
    ensures Goes(u, w, [KeyToken] + (Tokens(k) + [ValueToken]), line, from) && Inside(w, line, from) && !w.allowed
    decreases k, 3
  {
    hide ScanAll, Noted, Tokens, Written, InFlow, Inside, Fetched, Goes, Lay;
    var a := Written(k, bare);
    ScanTwo(u, ls, a, [ValueToken] + ts, line, from);
    NodeScanned(u, k, ls[..|a|], bare, line, from);
    var x, rest := ScanAll(u, ls[..|a|]), ls[|a|..];
    ScanFirst(x, rest, ValueToken, ts, line, from);
    ColonScanned(u, x, rest[0], Tokens(k), ls[..|a|][0].start, line, from);
    w := Fetched(x, rest[0]);
    assert rest[1..] == ls[|a| + 1..];
  }

  /** '?' and a key, or nothing behind it. */
  lemma {:induction false} MarkedKeyScanned(u: View, k: Place, ls: seq<Lexeme>, bare: Text -> bool, line: nat,
                                            from: nat)
    requires Inside(u, line, from) && PlaceInFlow(k)
    requires Lay(ls, [KeyToken] + (if k.Present? then Written(k.text, bare) else []), line, from)
    ensures var w := ScanAll(u, ls);
            && Goes(u, w, [KeyToken] + PlaceTokens(k), line, from) && Inside(w, line, from) && !w.allowed
            && !TopKey(w.keys).possible
    decreases k, 4
  {
    hide ScanAll, Written, Fetched, Goes, Lay, PlaceTokens;
    ScanFirst(u, ls, KeyToken, if k.Present? then Written(k.text, bare) else [], line, from);
    var x := Fetched(u, ls[0]);
    KeyGoes(u, ls[0], line, from);
    PlaceScanned(x, k, ls[1..], bare, line, from);
    GoesOn(u, x, ScanAll(u, ls), [KeyToken], PlaceTokens(k), line, from);
  }

  lemma KeyGoes(u: View, l: Lexeme, line: nat, from: nat)
    requires Inside(u, line, from) && OneLay(l, line, from) && l.token.KeyToken?
    ensures var x := Fetched(u, l);
            Goes(u, x, [KeyToken], line, from) && Inside(x, line, from) && !x.allowed && !TopKey(x.keys).possible
  {
    hide Fetched;
    KeyStep(u, l, line, from);
    assert |Fetched(u, l).tokens| == |u.tokens| + 1;
  }

  /** Behind a key with '?': a colon with its value, or nothing. */
  lemma {:induction false} MarkedValueScanned(u: View, v: Value, ls: seq<Lexeme>, bare: Text -> bool, line: nat,
                                              from: nat)
    requires Inside(u, line, from) && ValueInFlow(v) && !u.allowed && !TopKey(u.keys).possible
    requires Lay(ls, WrittenValue(v, bare), line, from)
    ensures var w := ScanAll(u, ls); Goes(u, w, ValueTokens(v), line, from) && Inside(w, line, from) && !w.allowed
    decreases v, 4
  {
    hide ScanAll, Written, Fetched, Goes, Lay, PlaceTokens;
    if v.NoValue? {
      NothingGoes(u, ls, line, from);
    } else {
      ScanFirst(u, ls, ValueToken, if v.place.Present? then Written(v.place.text, bare) else [], line, from);
      var x := Fetched(u, ls[0]);
      ValueGoes(u, ls[0], line, from);
      PlaceScanned(x, v.place, ls[1..], bare, line, from);
      GoesOn(u, x, ScanAll(u, ls), [ValueToken], PlaceTokens(v.place), line, from);
    }
  }

  lemma NothingGoes(u: View, ls: seq<Lexeme>, line: nat, from: nat)
    requires Inside(u, line, from) && Lay(ls, [], line, from)
    ensures ScanAll(u, ls) == u && Goes(u, u, [], line, from)
  {
    assert ls == [] && Plainly(u.tokens) + [] == Plainly(u.tokens);
  }

  lemma ValueGoes(u: View, l: Lexeme, line: nat, from: nat)
    requires Inside(u, line, from) && OneLay(l, line, from) && l.token.ValueToken? && !TopKey(u.keys).possible
    ensures var x := Fetched(u, l); Goes(u, x, [ValueToken], line, from) && Inside(x, line, from) && !x.allowed
  {
    hide Fetched;
    ValueStep(u, l, line, from);
    assert |Fetched(u, l).tokens| == |Plainly(Fetched(u, l).tokens)|;
  }

  /** The parts of an entry put together. */
  lemma EntryGoes(u: View, y: View, x: View, w: View, k: Place, v: Value, a: seq<Token>, b: seq<Token>, r: seq<Token>,
                  line: nat, from: nat)
    requires Goes(u, y, a, line, from) && Goes(y, x, b, line, from)
    requires x.flowLevel > 0 && |x.keys| == x.flowLevel + 1 && Left(x, w, r)
    requires a + b == [KeyToken] + (PlaceTokens(k) + ValueTokens(v))
    ensures u.flowLevel > 0 && |u.keys| == u.flowLevel + 1
    ensures Left(u, w, [KeyToken] + (PlaceTokens(k) + (ValueTokens(v) + r)))
  {
    hide Goes, Left;
    GoesOn(u, y, x, a, b, line, from);
    GoesLeft(u, x, w, a + b, r, line, from);
    assert a + b + r == [KeyToken] + (PlaceTokens(k) + (ValueTokens(v) + r));
  }

  /** How an entry is written. */
  lemma EntryWritten(k: Place, v: Value, bare: Text -> bool, ts: seq<Token>)
    requires IsBare(k, v, bare)
    ensures WrittenKey(k, v, bare) + (WrittenValue(v, bare) + ts) ==
            Written(k.text, bare) + ([ValueToken] + (WrittenPlace(v.place, bare) + ts))
    ensures [KeyToken] + (Tokens(k.text) + [ValueToken]) + PlaceTokens(v.place) ==
            [KeyToken] + (PlaceTokens(k) + ValueTokens(v))
  {
    hide Written, Tokens;
  }

  function WrittenPlace(p: Place, bare: Text -> bool): seq<Token> {
    if p.Present? then Written(p.text, bare) else []
  }

  lemma MarkedWritten(k: Place, v: Value, bare: Text -> bool)
    requires !IsBare(k, v, bare)
    ensures WrittenKey(k, v, bare) == [KeyToken] + WrittenPlace(k, bare)
    ensures [KeyToken] + PlaceTokens(k) + ValueTokens(v) == [KeyToken] + (PlaceTokens(k) + ValueTokens(v))
  {
    hide Written, Tokens;
  }

  lemma {:induction false} ItemsScanned(v: View, items: FlowItems, first: bool, ls: seq<Lexeme>, bare: Text -> bool,
                                        line: nat, from: nat)
    requires Inside(v, line, from) && ItemsInFlow(items) && (first ==> v.allowed)
    requires Lay(ls, WrittenItems(items, first, bare), line, from)
    ensures v.flowLevel > 0 && |v.keys| == v.flowLevel + 1
    ensures Left(v, ScanAll(v, ls), FlowItemsTokens(items, first))
    decreases items, 6
  {
    hide ScanAll, Noted, Tokens, Written, InFlow, Inside, Fetched, Goes, Lay, Left, Comma, WrittenKey, WrittenValue,
      PlaceTokens, ValueTokens, IsBare;
    InsideKeys(v, line, from);
    match items
    case NoFlowItems(comma) =>
      EndScanned(v, first || !comma, FlowSequenceEndToken, ls, line, from);
    case FlowItem(t, rest) =>
      var r := WrittenItems(rest, false, bare);
      var u := CommaScanned(v, first, ls, Written(t, bare) + r, line, from);
      var here := ls[|Comma(first)|..];
      var n := |Written(t, bare)|;
      ScanTwo(u, here, Written(t, bare), r, line, from);
      NodeScanned(u, t, here[..n], bare, line, from);
      NodeGoes(u, t, here[..n], bare, line, from);
      var x := ScanAll(u, here[..n]);
      ItemsScanned(x, rest, false, here[n..], bare, line, from);
      GoesLeft(u, x, ScanAll(v, ls), Tokens(t), FlowItemsTokens(rest, false), line, from);
      GoesLeft(v, u, ScanAll(v, ls), Comma(first), Tokens(t) + FlowItemsTokens(rest, false), line, from);
    case FlowSinglePair(k, value, rest) =>
      var r := WrittenItems(rest, false, bare);
      var u := CommaScanned(v, first, ls, WrittenKey(k, value, bare) + (WrittenValue(value, bare) + r), line, from);
      var here := ls[|Comma(first)|..];
      var a, b, y, x, there;
      if IsBare(k, value, bare) {
        BareIsThere(k, value, bare);
        EntryWritten(k, value, bare, r);
        y := BareEntryScanned(u, k.text, here, WrittenPlace(value.place, bare) + r, bare, line, from);
        there := here[|Written(k.text, bare)| + 1..];
        var n := |WrittenPlace(value.place, bare)|;
        ScanTwo(y, there, WrittenPlace(value.place, bare), r, line, from);
        PlaceScanned(y, value.place, there[..n], bare, line, from);
        a, b := [KeyToken] + (Tokens(k.text) + [ValueToken]), PlaceTokens(value.place);
        x, there := ScanAll(y, there[..n]), there[n..];
      } else {
        MarkedWritten(k, value, bare);
        var m, n := |WrittenKey(k, value, bare)|, |WrittenValue(value, bare)|;
        ScanTwo(u, here, WrittenKey(k, value, bare), WrittenValue(value, bare) + r, line, from);
        MarkedKeyScanned(u, k, here[..m], bare, line, from);
        y := ScanAll(u, here[..m]);
        ScanTwo(y, here[m..], WrittenValue(value, bare), r, line, from);
        MarkedValueScanned(y, value, here[m..][..n], bare, line, from);
        a, b := [KeyToken] + PlaceTokens(k), ValueTokens(value);
        x, there := ScanAll(y, here[m..][..n]), here[m..][n..];
      }
      ItemsScanned(x, rest, false, there, bare, line, from);
      var t := FlowItemsTokens(rest, false);
      EntryGoes(u, y, x, ScanAll(v, ls), k, value, a, b, t, line, from);
      GoesLeft(v, u, ScanAll(v, ls), Comma(first), [KeyToken] + (PlaceTokens(k) + (ValueTokens(value) + t)), line,
               from);
  }

  lemma {:induction false} PairsScanned(v: View, pairs: FlowPairs, first: bool, ls: seq<Lexeme>, bare: Text -> bool,
                                        line: nat, from: nat)
    requires Inside(v, line, from) && PairsInFlow(pairs) && (first ==> v.allowed)
    requires Lay(ls, WrittenPairs(pairs, first, bare), line, from)
    ensures v.flowLevel > 0 && |v.keys| == v.flowLevel + 1
    ensures Left(v, ScanAll(v, ls), FlowPairsTokens(pairs, first))
    decreases pairs, 6
  {
    hide ScanAll, Noted, Tokens, Written, InFlow, Inside, Fetched, Goes, Lay, Left, Comma, WrittenKey, WrittenValue,
      PlaceTokens, ValueTokens, IsBare;
    InsideKeys(v, line, from);
    match pairs
    case NoFlowPairs(comma) =>
      EndScanned(v, first || !comma, FlowMappingEndToken, ls, line, from);
    case FlowKeyOnly(t, rest) =>
      var r := WrittenPairs(rest, false, bare);
      var u := CommaScanned(v, first, ls, Written(t, bare) + r, line, from);
      var here := ls[|Comma(first)|..];
      var n := |Written(t, bare)|;
      ScanTwo(u, here, Written(t, bare), r, line, from);
      NodeScanned(u, t, here[..n], bare, line, from);
      NodeGoes(u, t, here[..n], bare, line, from);
      var x := ScanAll(u, here[..n]);
      PairsScanned(x, rest, false, here[n..], bare, line, from);
      GoesLeft(u, x, ScanAll(v, ls), Tokens(t), FlowPairsTokens(rest, false), line, from);
      GoesLeft(v, u, ScanAll(v, ls), Comma(first), Tokens(t) + FlowPairsTokens(rest, false), line, from);
    case FlowPair(k, value, rest) =>
      var r := WrittenPairs(rest, false, bare);
      var u := CommaScanned(v, first, ls, WrittenKey(k, value, bare) + (WrittenValue(value, bare) + r), line, from);
      var here := ls[|Comma(first)|..];
      var a, b, y, x, there;
      if IsBare(k, value, bare) {
        BareIsThere(k, value, bare);
        EntryWritten(k, value, bare, r);
        y := BareEntryScanned(u, k.text, here, WrittenPlace(value.place, bare) + r, bare, line, from);
        there := here[|Written(k.text, bare)| + 1..];
        var n := |WrittenPlace(value.place, bare)|;
        ScanTwo(y, there, WrittenPlace(value.place, bare), r, line, from);
        PlaceScanned(y, value.place, there[..n], bare, line, from);
        a, b := [KeyToken] + (Tokens(k.text) + [ValueToken]), PlaceTokens(value.place);
        x, there := ScanAll(y, there[..n]), there[n..];
      } else {
        MarkedWritten(k, value, bare);
        var m, n := |WrittenKey(k, value, bare)|, |WrittenValue(value, bare)|;
        ScanTwo(u, here, WrittenKey(k, value, bare), WrittenValue(value, bare) + r, line, from);
        MarkedKeyScanned(u, k, here[..m], bare, line, from);
        y := ScanAll(u, here[..m]);
        ScanTwo(y, here[m..], WrittenValue(value, bare), r, line, from);
        MarkedValueScanned(y, value, here[m..][..n], bare, line, from);
        a, b := [KeyToken] + PlaceTokens(k), ValueTokens(value);
        x, there := ScanAll(y, here[m..][..n]), here[m..][n..];
      }
      PairsScanned(x, rest, false, there, bare, line, from);
      var t := FlowPairsTokens(rest, false);
      EntryGoes(u, y, x, ScanAll(v, ls), k, value, a, b, t, line, from);
      GoesLeft(v, u, ScanAll(v, ls), Comma(first), [KeyToken] + (PlaceTokens(k) + (ValueTokens(value) + t)), line,
               from);
  }

  lemma BareIsThere(k: Place, v: Value, bare: Text -> bool)
    requires IsBare(k, v, bare)
    ensures k.Present? && v.HasValue?
  {
  }

  /** The closing bracket, perhaps behind a comma. */
  lemma EndScanned(v: View, first: bool, t: Token, ls: seq<Lexeme>, line: nat, from: nat)
    requires Inside(v, line, from) && Lay(ls, Comma(first) + [t], line, from) && EndsFlow(t)
    ensures v.flowLevel > 0 && |v.keys| == v.flowLevel + 1 && Left(v, ScanAll(v, ls), Comma(first) + [t])
  {
    hide ScanAll, Fetched, Goes, Comma, Lay, Inside;
    InsideKeys(v, line, from);
    var u := CommaScanned(v, first, ls, [t], line, from);
    var here := ls[|Comma(first)|..];
    assert [t] + [] == [t];
    ScanFirst(u, here, t, [], line, from);
    CloseStep(u, here[0], line, from);
    NothingLeft(here[1..], line, from);
    ScanNone(Fetched(u, here[0]));
    InsideKeys(u, line, from);
    GoesLeft(v, u, ScanAll(v, ls), Comma(first), [t], line, from);
  }

  lemma NothingLeft(ls: seq<Lexeme>, line: nat, from: nat)
    requires Lay(ls, [], line, from)
    ensures ls == []
  {
  }

  // ---------------------------------------------------------------- a whole stream

  predicate IsFlowCollection(t: Text) {
    (t.FlowSequenceText? || t.FlowMappingText?) && PropsTokens(t.props) == []
  }

  lemma FirstBracket(m: Mark, l: Lexeme, line: nat, from: nat)
    requires OneLay(l, line, from) && (l.token.FlowSequenceStartToken? || l.token.FlowMappingStartToken?)
    ensures var w := Fetched(Started(m), l);
            && Inside(w, line, from) && w.allowed && w.flowLevel == 1 && w.indents == [] && w.indent == -1
            && Plainly(w.tokens) == [StreamStartToken, l.token]
  {
    var v := Started(m);
    assert Fresh(v.keys, l.start) == [NoKey];
  }

  lemma LastToken(v: View, l: Lexeme)
    requires v.flowLevel == 0 && v.indents == [] && v.indent == -1 && l.token.StreamEndToken?
    ensures Plainly(Fetched(v, l).tokens) == Plainly(v.tokens) + [StreamEndToken]
  {
  }

  /** A stream of one flow collection, with '?' or without, is scanned to its tokens. */
  lemma StreamScanned(m: Mark, t: Text, ls: seq<Lexeme>, end: Lexeme, bare: Text -> bool, line: nat, from: nat)
    requires IsFlowCollection(t) && InFlow(t) && Lay(ls, Written(t, bare), line, from) && end.token.StreamEndToken?
    ensures Plainly(ScanAll(Started(m), ls + [end]).tokens) == [StreamStartToken] + (Tokens(t) + [StreamEndToken])
  {
    hide ScanAll, Fetched, Started, Lay, Inside, InFlow, WrittenContent, ContentTokens, IsFlowCollection, Tokens,
      Written, Left, Comes;
    var c, r := CollectionParts(t, bare);
    ScanFirst(Started(m), ls, c, WrittenContent(t, bare)[1..], line, from);
    FirstBracket(m, ls[0], line, from);
    var u, w := Fetched(Started(m), ls[0]), ScanAll(Started(m), ls);
    CollectionScanned(u, t, ls[1..], bare, line, from);
    Finished(u, w, c, r);
    ScanAllConcat(Started(m), ls, [end]);
    ScanOne(w, end);
    LastToken(w, end);
    assert [StreamStartToken] + ([c] + r) + [StreamEndToken] == [StreamStartToken] + (Tokens(t) + [StreamEndToken]);
  }

  lemma CollectionParts(t: Text, bare: Text -> bool) returns (c: Token, r: seq<Token>)
    requires IsFlowCollection(t) && InFlow(t)
    ensures c == FlowSequenceStartToken || c == FlowMappingStartToken
    ensures WrittenContent(t, bare) != [] && ContentTokens(t) != [] && r == ContentTokens(t)[1..]
    ensures Written(t, bare) == [c] + WrittenContent(t, bare)[1..] && Tokens(t) == [c] + r
  {
    hide WrittenItems, WrittenPairs, FlowItemsTokens, FlowPairsTokens, PropsTokens, InFlow;
    NodeParts(t, bare);
    var x, y := WrittenContent(t, bare), ContentTokens(t);
    assert [] + x == x && [] + y == y;
    c, r := y[0], y[1..];
    assert x == [c] + x[1..] && y == [c] + r;
  }

  /** Behind the closing bracket the scanner is back at the level of the document. */
  lemma Finished(u: View, w: View, c: Token, r: seq<Token>)
    requires u.flowLevel == 1 && |u.keys| == 2 && u.indents == [] && u.indent == -1
    requires Plainly(u.tokens) == [StreamStartToken, c] && Left(u, w, r)
    ensures w.flowLevel == 0 && w.indents == [] && w.indent == -1
    ensures Plainly(w.tokens) == [StreamStartToken] + ([c] + r)
  {
    assert [StreamStartToken, c] + r == [StreamStartToken] + ([c] + r);
  }

  lemma CollectionScanned(u: View, t: Text, ls: seq<Lexeme>, bare: Text -> bool, line: nat, from: nat)
    requires Inside(u, line, from) && u.allowed && IsFlowCollection(t) && InFlow(t)
    requires Lay(ls, WrittenContent(t, bare)[1..], line, from)
    ensures u.flowLevel > 0 && |u.keys| == u.flowLevel + 1
    ensures Left(u, ScanAll(u, ls), ContentTokens(t)[1..])
  {
    hide ScanAll, Lay, Inside, WrittenItems, WrittenPairs, FlowItemsTokens, FlowPairsTokens, Left;
    InsideKeys(u, line, from);
    if t.FlowSequenceText? {
      ItemsScanned(u, t.flowItems, true, ls, bare, line, from);
    } else {
      PairsScanned(u, t.flowPairs, true, ls, bare, line, from);
    }
  }

  /**
   From what is written to the events: in whatever way the keys of the collection are written, the parser reads what the
   scanner makes of it to the events of the collection, exactly if it is readable.
   */
  lemma FlowStreamIsRead(m: Mark, t: Text, ls: seq<Lexeme>, end: Lexeme, bare: Text -> bool, line: nat, from: nat)
    requires IsFlowCollection(t) && InFlow(t) && Lay(ls, Written(t, bare), line, from) && end.token.StreamEndToken?
    requires YamlText.Fits(t, WithDefaults([]), true, false)
    ensures var tokens := Plainly(ScanAll(Started(m), ls + [end]).tokens);
            (exists n: nat :: ReadsTo(tokens, n, StreamEventsOf(OneText(t)))) <==> Readable(t)
  {
    hide ScanAll, Started, Lay, InFlow, Tokens, Written, YamlText.Fits, Readable, ReadsTo;
    StreamScanned(m, t, ls, end, bare, line, from);
    OneTextStream(t);
    StreamIsReadIff(OneText(t));
  }

  lemma OneTextStream(t: Text)
    requires YamlText.Fits(t, WithDefaults([]), true, false)
    ensures DocumentsFit(OneText(t), true) && (DocumentsReadable(OneText(t)) <==> Readable(t))
    ensures StreamTokens(OneText(t)) == [StreamStartToken] + (Tokens(t) + [StreamEndToken])
  {
    hide Tokens, Readable, YamlText.Fits;
    var d := DocumentText(false, [], Present(t), 0);
    assert OneText(t)[0] == d && OneText(t)[1..] == [] && TagsOf([]) == [];
    assert DocumentsTokens([]) == [StreamEndToken];
    assert [] + (Tokens(t) + ([] + [StreamEndToken])) == Tokens(t) + [StreamEndToken];
  }
}
