/**
 The parser reads nothing else: whatever it reads to the end, without ever skipping a token behind an absent key, is a
 stream of the grammar.  The text is built from the run, production by production.
 */
module YamlParseOnly {
  import opened Common
  import opened YamlEvents
  import opened YamlParse
  import opened YamlParseSafety
  import opened YamlText
  import opened YamlTextParse
  import opened YamlStreamParse

  // ---------------------------------------------------------------- runs that come to the end

  /** The step that skips a token unseen: a key without a node in a flow sequence. */
  predicate SkipsToken(m: Machine) {
    && m.state.FlowSequenceEntryMappingKeyState? && m.pos < |m.tokens|
    && var t := m.tokens[m.pos]; t.ValueToken? || t.FlowEntryToken? || t.FlowSequenceEndToken?
  }

  /** `k` steps from here the stream has ended without an error, and none of them skips a token. */
  predicate Succeeds(m: Machine, k: nat)
    decreases k
  {
    if k == 0 then m.state.EndState? && m.error == NoError
    else Ready(m) && !SkipsToken(m) && StateMachine(m).event.Some? && Succeeds(StateMachine(m).m, k - 1)
  }

  lemma SucceedsFurther(m: Machine, k: nat)
    requires Succeeds(m, k) && !m.state.EndState?
    ensures k > 0 && Ready(m) && !SkipsToken(m) && StateMachine(m).event.Some? && Succeeds(StateMachine(m).m, k - 1)
  {
    hide StateMachine;
  }

  /** The scanner makes no anchors without a name. */
  predicate Named(tokens: seq<Token>) {
    forall i :: 0 <= i < |tokens| ==> tokens[i] != AnchorToken("")
  }

  lemma RestStep(m: Machine)
    requires m.pos < |m.tokens|
    ensures Rest(m) == [m.tokens[m.pos]] + Rest(Ahead(m, 1))
  {
  }

  lemma RestSame(m: Machine, n: Machine)
    requires m.tokens == n.tokens && m.pos == n.pos
    ensures Rest(m) == Rest(n)
  {
  }

  // ---------------------------------------------------------------- nodes

  lemma PropsText(m: Machine) returns (p: Props)
    requires Ready(m) && Named(m.tokens) && Peek(ReadProperties(m).m).Some?
    ensures ReadProperties(m) == Properties(Ahead(m, |PropsTokens(p)|), p.anchor, p.tag)
    ensures m.pos + |PropsTokens(p)| < |m.tokens| && Rest(m) == PropsTokens(p) + Rest(Ahead(m, |PropsTokens(p)|))
  {
    hide Rest, PropsTokens;
    var r := ReadProperties(m);
    p := Props(r.anchor, r.tag, m.tokens[m.pos].AnchorToken?);
    PropsAre(m, p);
    var n := |PropsTokens(p)|;
    if n == 0 {
      assert Ahead(m, 0) == m && [] + Rest(m) == Rest(m);
    } else {
      RestStep(m);
      if n == 2 {
        RestStep(Ahead(m, 1));
        assert Ahead(Ahead(m, 1), 1) == Ahead(m, 2);
      }
    }
  }

  /** The properties in front of a node are their tokens. */
  lemma PropsAre(m: Machine, p: Props)
    requires Ready(m) && Named(m.tokens) && Peek(ReadProperties(m).m).Some?
    requires var r := ReadProperties(m); p == Props(r.anchor, r.tag, m.tokens[m.pos].AnchorToken?)
    ensures var ts := PropsTokens(p);
            && |ts| <= 2 && m.pos + |ts| < |m.tokens|
            && ts == (if |ts| == 0 then [] else if |ts| == 1 then [m.tokens[m.pos]]
                      else [m.tokens[m.pos], m.tokens[m.pos + 1]])
            && ReadProperties(m) == Properties(Ahead(m, |ts|), p.anchor, p.tag)
  {
    assert m.tokens[m.pos] != AnchorToken("");
    if m.pos + 1 < |m.tokens| { assert m.tokens[m.pos + 1] != AnchorToken(""); }
  }

  /** A node has been read: its text, and the run goes on behind it. */
  predicate NodeIs(m: Machine, t: Text, k: nat, j: nat, block: bool, indentless: bool)
    requires m.states != []
  {
    && j <= k && m.pos + |Tokens(t)| <= |m.tokens|
    && Rest(m) == Tokens(t) + Rest(Ahead(m, |Tokens(t)|))
    && YamlText.Fits(t, m.directives, block, indentless) && Readable(t)
    && Succeeds(Returned(m, |Tokens(t)|), j)
  }

  /** The entries of a collection have been read, with its closing token; `n` is the machine behind the opening one. */
  predicate EntriesAre(n: Machine, ts: seq<Token>, k: nat, j: nat)
    requires n.states != [] && n.marks != []
  {
    && j < k && n.pos + |ts| <= |n.tokens| && Rest(n) == ts + Rest(Ahead(n, |ts|))
    && Succeeds(Left(n, |ts|), j)
  }

  /** In a collection, which is in its own state or has its opening token ahead. */
  predicate InCollection(m: Machine, first: bool, ofFirst: State, own: State) {
    && m.states != [] && m.state == (if first then ofFirst else own)
    && Named(m.tokens) && m.pos <= |m.tokens| && m.error == NoError && !m.ended
    && (first ==> m.pos < |m.tokens| && !m.tokens[m.pos].StreamEndToken?)
    && (!first ==> m.marks != [])
  }

  lemma InnerIs(m: Machine, first: bool, ofFirst: State, own: State)
    requires InCollection(m, first, ofFirst, own)
    ensures var n := Inner(m, first);
            && n.states != [] && n.marks != [] && n.error == NoError && !n.ended && n.pos <= |n.tokens|
            && Named(n.tokens) && n.directives == m.directives && n.states == m.states && n.tokens == m.tokens
            && n.pos == m.pos + (if first then 1 else 0)
  {
  }

  lemma AliasIs(m: Machine, k: nat, block: bool, indentless: bool)
    requires Ready(m) && m.states != [] && m.pos < |m.tokens| && m.tokens[m.pos].AliasToken?
    requires Succeeds(ParseNode(m, block, indentless).m, k)
    ensures NodeIs(m, AliasText(m.tokens[m.pos].name), k, k, block, indentless)
  {
    hide Succeeds, Rest;
    RestStep(m);
    assert ParseNode(m, block, indentless).m == Returned(m, 1);
  }

  /** What comes behind the properties of a node that is no alias. */
  lemma ContentIs(m: Machine, p: Props, block: bool, indentless: bool)
    requires Ready(m) && m.states != [] && m.pos < |m.tokens| && !m.tokens[m.pos].AliasToken?
    requires var n := Ahead(m, |PropsTokens(p)|);
             ReadProperties(m) == Properties(n, p.anchor, p.tag) && n.pos < |n.tokens|
    requires ParseNode(m, block, indentless).event.Some?
    ensures Resolve(m.directives, p.tag).Some?
    ensures var n := Ahead(m, |PropsTokens(p)|);
            ParseNode(m, block, indentless) ==
            ParseContent(n, n.tokens[n.pos], p.anchor, Full(p, m.directives), block, indentless)
  {
    hide ReadProperties, Resolve, ParseContent, PropsTokens;
  }

  lemma ScalarIs(m: Machine, p: Props, k: nat, block: bool, indentless: bool)
    requires Ready(m) && m.states != [] && Resolve(m.directives, p.tag).Some?
    requires var n := Ahead(m, |PropsTokens(p)|);
             && n.pos < |n.tokens| && n.tokens[n.pos].ScalarToken? && Rest(m) == PropsTokens(p) + Rest(n)
             && Succeeds(Skip(PopState(n)), k)
    ensures var c := m.tokens[m.pos + |PropsTokens(p)|];
            NodeIs(m, ScalarText(p, c.value, c.style), k, k, block, indentless)
  {
    hide Succeeds, Rest, PropsTokens, Resolve;
    var n := Ahead(m, |PropsTokens(p)|);
    var c := n.tokens[n.pos];
    RestStep(n);
    assert PropsTokens(p) + ([c] + Rest(Ahead(n, 1))) ==
           PropsTokens(p) + [ScalarToken(c.value, c.style)] + Rest(Ahead(n, 1));
    assert Ahead(n, 1) == Ahead(m, |PropsTokens(p)| + 1);
    assert Skip(PopState(n)) == Returned(m, |PropsTokens(p)| + 1);
  }

  lemma BareIs(m: Machine, p: Props, k: nat, block: bool, indentless: bool)
    requires Ready(m) && m.states != [] && Resolve(m.directives, p.tag).Some?
    requires p.anchor != "" || Full(p, m.directives) != ""
    requires var n := Ahead(m, |PropsTokens(p)|);
             n.pos < |n.tokens| && Rest(m) == PropsTokens(p) + Rest(n) && Succeeds(PopState(n), k)
    ensures NodeIs(m, BareText(p), k, k, block, indentless)
  {
    hide Succeeds, Rest, PropsTokens, Resolve;
    var n := Ahead(m, |PropsTokens(p)|);
    assert PopState(n) == Returned(m, |PropsTokens(p)|);
  }

  /** A collection, with its opening token behind the properties. */
  lemma CollectionIs(m: Machine, p: Props, c: Token, ts: seq<Token>, t: Text, k: nat, j: nat, block: bool,
                     indentless: bool)
    requires Ready(m) && m.states != [] && !c.StreamEndToken?
    requires var n := Ahead(m, |PropsTokens(p)|);
             && n.pos < |n.tokens| && n.tokens[n.pos] == c && Rest(m) == PropsTokens(p) + Rest(n)
             && EntriesAre(Open(n.(state := FirstOf(c))), ts, k, j)
    requires Tokens(t) == PropsTokens(p) + ([c] + ts)
    requires YamlText.Fits(t, m.directives, block, indentless) && Readable(t)
    ensures NodeIs(m, t, k, j, block, indentless)
  {
    hide Succeeds, Rest, PropsTokens, Tokens, YamlText.Fits, Readable, FirstOf;
    var a := |PropsTokens(p)|;
    var n := Ahead(m, a);
    var q := Open(n.(state := FirstOf(c)));
    RestStep(n);
    RestSame(q, Ahead(n, 1));
    RestSame(Ahead(q, |ts|), Ahead(m, a + 1 + |ts|));
    assert PropsTokens(p) + ([c] + (ts + Rest(Ahead(m, a + 1 + |ts|)))) == Tokens(t) + Rest(Ahead(m, |Tokens(t)|));
    assert Left(q, |ts|) == Returned(m, |Tokens(t)|);
  }

  lemma {:induction false} NodeText(m: Machine, k: nat, block: bool, indentless: bool) returns (t: Text, j: nat)
    requires Ready(m) && m.states != [] && Named(m.tokens)
    requires var o := ParseNode(m, block, indentless); o.event.Some? && Succeeds(o.m, k)
    ensures NodeIs(m, t, k, j, block, indentless)
    decreases k, 9
  {
    hide Succeeds, ParseContent, ReadProperties, Rest, Resolve, PropsTokens, NodeIs;
    if m.tokens[m.pos].AliasToken? {
      t, j := AliasText(m.tokens[m.pos].name), k;
      AliasIs(m, k, block, indentless);
    } else {
      var p := PropsText(m);
      ContentIs(m, p, block, indentless);
      t, j := ContentText(m, p, k, block, indentless);
    }
  }

  lemma {:induction false} ContentText(m: Machine, p: Props, k: nat, block: bool, indentless: bool)
      returns (t: Text, j: nat)
    requires Ready(m) && m.states != [] && Named(m.tokens) && Resolve(m.directives, p.tag).Some?
    requires var n := Ahead(m, |PropsTokens(p)|);
             && n.pos < |n.tokens| && Rest(m) == PropsTokens(p) + Rest(n)
             && var o := ParseContent(n, n.tokens[n.pos], p.anchor, Full(p, m.directives), block, indentless);
                o.event.Some? && Succeeds(o.m, k)
    ensures NodeIs(m, t, k, j, block, indentless)
    decreases k, 8
  {
    hide Succeeds, Rest, Resolve, PropsTokens, NodeIs, EntriesAre, ItemsTokens, PairsTokens, FlowItemsTokens,
      FlowPairsTokens, ItemsFit, PairsFit, FlowItemsFit, FlowPairsFit, Full;
    var n := Ahead(m, |PropsTokens(p)|);
    var c := n.tokens[n.pos];
    if indentless && c.BlockEntryToken? {
      t, j := IndentlessNode(m, p, k, block, indentless);
    } else if c.ScalarToken? {
      t, j := ScalarText(p, c.value, c.style), k;
      ScalarIs(m, p, k, block, indentless);
    } else if c.FlowSequenceStartToken? {
      var items;
      items, j := FlowItemsText(n.(state := FlowSequenceFirstEntryState), true, k);
      t := FlowSequenceText(p, items);
      TokensOfFlow(t);
      CollectionIs(m, p, c, FlowItemsTokens(items, true), t, k, j, block, indentless);
    } else if c.FlowMappingStartToken? {
      var pairs;
      pairs, j := FlowPairsText(n.(state := FlowMappingFirstKeyState), true, k);
      t := FlowMappingText(p, pairs);
      TokensOfFlow(t);
      CollectionIs(m, p, c, FlowPairsTokens(pairs, true), t, k, j, block, indentless);
    } else if block && c.BlockSequenceStartToken? {
      var items;
      items, j := BlockItemsText(n.(state := BlockSequenceFirstEntryState), true, k);
      t := BlockSequenceText(p, items);
      TokensOfBlock(t);
      CollectionIs(m, p, c, ItemsTokens(items) + [BlockEndToken], t, k, j, block, indentless);
    } else if block && c.BlockMappingStartToken? {
      var pairs;
      pairs, j := BlockPairsText(n.(state := BlockMappingFirstKeyState), true, k);
      t := BlockMappingText(p, pairs);
      TokensOfBlock(t);
      CollectionIs(m, p, c, PairsTokens(pairs) + [BlockEndToken], t, k, j, block, indentless);
    } else {
      t, j := BareText(p), k;
      BareIs(m, p, k, block, indentless);
    }
  }

  lemma TokensOfFlow(t: Text)
    ensures t.FlowSequenceText? ==>
              Tokens(t) == PropsTokens(t.props) + ([FlowSequenceStartToken] + FlowItemsTokens(t.flowItems, true))
    ensures t.FlowMappingText? ==>
              Tokens(t) == PropsTokens(t.props) + ([FlowMappingStartToken] + FlowPairsTokens(t.flowPairs, true))
  {
  }

  lemma TokensOfBlock(t: Text)
    ensures t.BlockSequenceText? ==>
              Tokens(t) == PropsTokens(t.props) + ([BlockSequenceStartToken] + (ItemsTokens(t.items) + [BlockEndToken]))
    ensures t.BlockMappingText? ==>
              Tokens(t) == PropsTokens(t.props) + ([BlockMappingStartToken] + (PairsTokens(t.pairs) + [BlockEndToken]))
  {
  }

  // ---------------------------------------------------------------- places

  /** Behind an indicator, a node or nothing has been read; `l` is how many tokens that is with the indicator. */
  predicate PlaceIs(n: Machine, place: Place, next: State, k: nat, j: nat, block: bool, indentless: bool) {
    var l := 1 + |PlaceTokens(place)|;
    && j <= k && n.pos < |n.tokens| && n.pos + l <= |n.tokens|
    && Rest(n) == [n.tokens[n.pos]] + (PlaceTokens(place) + Rest(Ahead(n, l)))
    && PlaceFits(place, n.directives, block, indentless) && PlaceReadable(place)
    && Succeeds(Ahead(n, l).(state := next), j)
  }

  lemma {:induction false} PlaceText(n: Machine, ends: Token -> bool, next: State, k: nat, block: bool,
                                     indentless: bool)
      returns (place: Place, j: nat)
    requires n.error == NoError && !n.ended && n.pos < |n.tokens| && !n.tokens[n.pos].StreamEndToken?
    requires Named(n.tokens) && !next.EndState? && !n.state.EndState?
    requires var o := NodeBehind(n, ends, next, block, indentless); o.event.Some? && Succeeds(o.m, k)
    ensures PlaceIs(n, place, next, k, j, block, indentless)
    decreases k, 10
  {
    hide Succeeds, ParseNode, Rest, YamlText.Fits, Readable, Tokens;
    var a := Ahead(n, 1);
    assert Skip(n) == a;
    RestStep(n);
    if ends(a.tokens[a.pos]) {
      place, j := Absent, k;
      assert [] + Rest(a) == Rest(a);
    } else {
      var t;
      t, j := NodeText(Push(a, next), k, block, indentless);
      place := Present(t);
      PlaceFromNode(n, t, next, k, j, block, indentless);
    }
  }

  lemma PlaceFromNode(n: Machine, t: Text, next: State, k: nat, j: nat, block: bool, indentless: bool)
    requires n.pos < |n.tokens| && NodeIs(Push(Ahead(n, 1), next), t, k, j, block, indentless)
    ensures PlaceIs(n, Present(t), next, k, j, block, indentless)
  {
    hide Succeeds, Rest, YamlText.Fits, Readable, Tokens;
    var a, l := Ahead(n, 1), |Tokens(t)|;
    RestStep(n);
    PushReturnedHere(a, next, l);
    RestSame(a, Push(a, next));
    RestSame(Ahead(Push(a, next), l), Ahead(n, 1 + l));
    assert Ahead(a, l) == Ahead(n, 1 + l);
  }

  /** A state that waits for VALUE has been left: with a place behind it, or with nothing. */
  predicate ValueIs(x: Machine, v: Value, next: State, k: nat, j: nat, block: bool, indentless: bool) {
    && j < k && x.pos + |ValueTokens(v)| <= |x.tokens|
    && Rest(x) == ValueTokens(v) + Rest(Ahead(x, |ValueTokens(v)|))
    && ValueFits(v, x.directives, block, indentless) && ValueReadable(v)
    && Succeeds(Ahead(x, |ValueTokens(v)|).(state := next), j)
  }

  lemma {:induction false} ValueText(x: Machine, ends: Token -> bool, next: State, k: nat, block: bool,
                                     indentless: bool)
      returns (v: Value, j: nat)
    requires Succeeds(x, k) && !x.state.EndState? && !next.EndState? && Named(x.tokens)
    requires x.pos < |x.tokens| ==>
               StateMachine(x) == if x.tokens[x.pos].ValueToken? then NodeBehind(x, ends, next, block, indentless)
                                  else EmitEmpty(x.(state := next))
    requires x.pos >= |x.tokens| ==> StateMachine(x).event == None
    ensures ValueIs(x, v, next, k, j, block, indentless)
    decreases k, 11
  {
    hide Succeeds, StateMachine, NodeBehind, Rest, PlaceTokens, PlaceFits, PlaceReadable;
    SucceedsFurther(x, k);
    if x.tokens[x.pos].ValueToken? {
      var place;
      place, j := PlaceText(x, ends, next, k - 1, block, indentless);
      v := HasValue(place);
      assert [ValueToken] + (PlaceTokens(place) + Rest(Ahead(x, 1 + |PlaceTokens(place)|))) ==
             ValueTokens(v) + Rest(Ahead(x, |ValueTokens(v)|));
    } else {
      v, j := NoValue, k - 1;
      assert Ahead(x, 0).(state := next) == x.(state := next) && Ahead(x, 0) == x;
      assert [] + Rest(x) == Rest(x);
    }
  }

  // ---------------------------------------------------------------- block collections

  /** What has been read of a collection, and its other entries. */
  lemma EntriesJoin(n: Machine, a: seq<Token>, s: State, ts: seq<Token>, i: nat, k: nat, j: nat)
    requires n.states != [] && n.marks != [] && n.pos + |a| <= |n.tokens| && Rest(n) == a + Rest(Ahead(n, |a|))
    requires EntriesAre(Ahead(n, |a|).(state := s), ts, i, j) && i <= k
    ensures EntriesAre(n, a + ts, k, j)
  {
    hide Succeeds, Rest;
    var x := Ahead(n, |a|).(state := s);
    RestSame(x, Ahead(n, |a|));
    RestSame(Ahead(x, |ts|), Ahead(n, |a + ts|));
    LeftAhead(n, |a|, s, |ts|);
    assert a + (ts + Rest(Ahead(n, |a + ts|))) == a + ts + Rest(Ahead(n, |a + ts|));
  }

  /** The closing token alone. */
  lemma EntriesEnd(n: Machine, e: Event, k: nat)
    requires n.states != [] && n.marks != [] && n.error == NoError && !n.ended && !n.state.EndState?
    requires n.pos < |n.tokens| && !n.tokens[n.pos].StreamEndToken? && k > 0 && Succeeds(Close(n, e).m, k - 1)
    ensures EntriesAre(n, [n.tokens[n.pos]], k, k - 1)
  {
    hide Succeeds, Rest;
    RestStep(n);
    CloseIsLeft(n, e);
  }

  lemma PlaceJoins(n: Machine, place: Place, next: State, k: nat, j: nat, block: bool, indentless: bool)
    requires PlaceIs(n, place, next, k, j, block, indentless)
    ensures var a := [n.tokens[n.pos]] + PlaceTokens(place);
            && n.pos + |a| <= |n.tokens| && Rest(n) == a + Rest(Ahead(n, |a|)) && |a| == 1 + |PlaceTokens(place)|
            && PlaceFits(place, n.directives, block, indentless) && PlaceReadable(place)
            && Succeeds(Ahead(n, |a|).(state := next), j) && j <= k
  {
    hide Succeeds, Rest, PlaceTokens, PlaceFits, PlaceReadable;
    var a := [n.tokens[n.pos]] + PlaceTokens(place);
    var r := Rest(Ahead(n, |a|));
    assert [n.tokens[n.pos]] + (PlaceTokens(place) + r) == a + r;
  }

  lemma {:induction false} BlockItemsText(m: Machine, first: bool, k: nat) returns (items: BlockItems, j: nat)
    requires InCollection(m, first, BlockSequenceFirstEntryState, BlockSequenceEntryState) && Succeeds(m, k)
    ensures var n := Inner(m, first);
            && n.states != [] && n.marks != [] && EntriesAre(n, ItemsTokens(items) + [BlockEndToken], k, j)
            && ItemsFit(items, m.directives) && ItemsReadable(items)
    decreases k, 5
  {
    hide Succeeds, StateMachine, NodeBehind, Rest, PlaceTokens, PlaceFits, PlaceReadable, EntriesAre, Inner, Close;
    var n := Inner(m, first);
    InnerIs(m, first, BlockSequenceFirstEntryState, BlockSequenceEntryState);
    SucceedsFurther(m, k);
    BlockItemStep(m, first);
    if n.tokens[n.pos].BlockEntryToken? {
      var place, i;
      place, i := PlaceText(n, EndsBlockItem, BlockSequenceEntryState, k - 1, true, false);
      PlaceJoins(n, place, BlockSequenceEntryState, k - 1, i, true, false);
      var a := [BlockEntryToken] + PlaceTokens(place);
      var x := Ahead(n, |a|).(state := BlockSequenceEntryState);
      SucceedsFurther(x, i);
      var rest;
      rest, j := BlockItemsText(x, false, i);
      InnerOfLater(x);
      items := BlockItem(place, rest);
      EntriesJoin(n, a, BlockSequenceEntryState, ItemsTokens(rest) + [BlockEndToken], i, k, j);
      assert a + (ItemsTokens(rest) + [BlockEndToken]) == ItemsTokens(items) + [BlockEndToken];
    } else {
      items, j := NoBlockItems, k - 1;
      EntriesEnd(n, SequenceEndEvent, k);
      assert [] + [BlockEndToken] == [BlockEndToken];
    }
  }

  /** What this production accepts. */
  lemma BlockItemStep(m: Machine, first: bool)
    requires InCollection(m, first, BlockSequenceFirstEntryState, BlockSequenceEntryState)
    requires StateMachine(m).event.Some?
    ensures var n := Inner(m, first);
            && n.pos < |n.tokens| && (n.tokens[n.pos].BlockEntryToken? || n.tokens[n.pos].BlockEndToken?)
            && !n.state.EndState?
            && StateMachine(m) == if n.tokens[n.pos].BlockEntryToken?
                                  then NodeBehind(n, EndsBlockItem, BlockSequenceEntryState, true, false)
                                  else Close(n, SequenceEndEvent)
  {
    hide NodeBehind;
  }

  lemma {:induction false} BlockPairsText(m: Machine, first: bool, k: nat) returns (pairs: BlockPairs, j: nat)
    requires InCollection(m, first, BlockMappingFirstKeyState, BlockMappingKeyState) && Succeeds(m, k)
    ensures var n := Inner(m, first);
            && n.states != [] && n.marks != [] && EntriesAre(n, PairsTokens(pairs) + [BlockEndToken], k, j)
            && PairsFit(pairs, m.directives) && PairsReadable(pairs)
    decreases k, 5
  {
    hide Succeeds, StateMachine, NodeBehind, Rest, PlaceTokens, PlaceFits, PlaceReadable, EntriesAre, Inner, Close,
      ValueTokens, ValueFits, ValueReadable;
    var n := Inner(m, first);
    InnerIs(m, first, BlockMappingFirstKeyState, BlockMappingKeyState);
    SucceedsFurther(m, k);
    BlockPairStep(m, first);
    if n.tokens[n.pos].KeyToken? {
      var key, i, v, h, rest;
      key, i := PlaceText(n, EndsBlockPair, BlockMappingValueState, k - 1, true, true);
      PlaceJoins(n, key, BlockMappingValueState, k - 1, i, true, true);
      var a := [KeyToken] + PlaceTokens(key);
      var x := Ahead(n, |a|).(state := BlockMappingValueState);
      BlockValueStep(x);
      v, h := ValueText(x, EndsBlockPair, BlockMappingKeyState, i, true, true);
      var b := a + ValueTokens(v);
      ValueJoins(n, a, BlockMappingValueState, v, BlockMappingKeyState, i, h, true, true);
      var y := Ahead(n, |b|).(state := BlockMappingKeyState);
      SucceedsFurther(y, h);
      rest, j := BlockPairsText(y, false, h);
      InnerOfLater(y);
      pairs := BlockPair(key, v, rest);
      EntriesJoin(n, b, BlockMappingKeyState, PairsTokens(rest) + [BlockEndToken], h, k, j);
      NoLoneValue(rest);
      assert b + (PairsTokens(rest) + [BlockEndToken]) == PairsTokens(pairs) + [BlockEndToken];
    } else {
      pairs, j := NoBlockPairs, k - 1;
      EntriesEnd(n, MappingEndEvent, k);
      assert [] + [BlockEndToken] == [BlockEndToken];
    }
  }

  lemma NoLoneValue(pairs: BlockPairs)
    requires PairsReadable(pairs)
    ensures !pairs.LoneValue?
  {
  }

  lemma BlockPairStep(m: Machine, first: bool)
    requires InCollection(m, first, BlockMappingFirstKeyState, BlockMappingKeyState)
    requires StateMachine(m).event.Some?
    ensures var n := Inner(m, first);
            && n.pos < |n.tokens| && (n.tokens[n.pos].KeyToken? || n.tokens[n.pos].BlockEndToken?)
            && !n.state.EndState?
            && StateMachine(m) == if n.tokens[n.pos].KeyToken?
                                  then NodeBehind(n, EndsBlockPair, BlockMappingValueState, true, true)
                                  else Close(n, MappingEndEvent)
  {
    hide NodeBehind;
  }

  lemma BlockValueStep(x: Machine)
    requires x.state.BlockMappingValueState?
    ensures x.pos < |x.tokens| ==>
              StateMachine(x) == if x.tokens[x.pos].ValueToken?
                                 then NodeBehind(x, EndsBlockPair, BlockMappingKeyState, true, true)
                                 else EmitEmpty(x.(state := BlockMappingKeyState))
    ensures x.pos >= |x.tokens| ==> StateMachine(x).event == None
  {
    hide NodeBehind;
  }

  /** A value behind what has been read of an entry. */
  lemma ValueJoins(n: Machine, a: seq<Token>, s: State, v: Value, next: State, k: nat, j: nat, block: bool,
                   indentless: bool)
    requires n.pos + |a| <= |n.tokens| && Rest(n) == a + Rest(Ahead(n, |a|))
    requires ValueIs(Ahead(n, |a|).(state := s), v, next, k, j, block, indentless)
    ensures var b := a + ValueTokens(v);
            && n.pos + |b| <= |n.tokens| && Rest(n) == b + Rest(Ahead(n, |b|)) && |b| == |a| + |ValueTokens(v)|
            && ValueFits(v, n.directives, block, indentless) && ValueReadable(v)
            && Succeeds(Ahead(n, |b|).(state := next), j) && j < k
  {
    hide Succeeds, Rest, ValueTokens, ValueFits, ValueReadable;
    var x, b := Ahead(n, |a|).(state := s), a + ValueTokens(v);
    RestSame(x, Ahead(n, |a|));
    RestSame(Ahead(x, |ValueTokens(v)|), Ahead(n, |b|));
    assert Ahead(x, |ValueTokens(v)|).(state := next) == Ahead(n, |b|).(state := next);
    assert a + (ValueTokens(v) + Rest(Ahead(n, |b|))) == b + Rest(Ahead(n, |b|));
  }

  // ---------------------------------------------------------------- sequences without a bracket

  predicate ItemsAre(m: Machine, items: BlockItems, k: nat, j: nat)
    requires m.states != []
  {
    var ts := ItemsTokens(items);
    && j < k && m.pos + |ts| <= |m.tokens| && Rest(m) == ts + Rest(Ahead(m, |ts|))
    && ItemsFit(items, m.directives) && ItemsReadable(items) && Succeeds(Returned(m, |ts|), j)
  }

  lemma {:induction false} IndentlessItems(m: Machine, k: nat) returns (items: BlockItems, j: nat)
    requires m.states != [] && m.state.IndentlessSequenceEntryState? && Named(m.tokens) && Succeeds(m, k)
    ensures ItemsAre(m, items, k, j)
    ensures m.pos < |m.tokens| && m.tokens[m.pos].BlockEntryToken? ==> items.BlockItem?
    decreases k, 5
  {
    hide Succeeds, StateMachine, NodeBehind, Rest, PlaceTokens, PlaceFits, PlaceReadable;
    SucceedsFurther(m, k);
    IndentlessStep(m);
    if m.tokens[m.pos].BlockEntryToken? {
      var place, i, rest;
      place, i := PlaceText(m, EndsIndentlessItem, IndentlessSequenceEntryState, k - 1, true, false);
      PlaceJoins(m, place, IndentlessSequenceEntryState, k - 1, i, true, false);
      var a := [BlockEntryToken] + PlaceTokens(place);
      rest, j := IndentlessItems(Ahead(m, |a|).(state := IndentlessSequenceEntryState), i);
      items := BlockItem(place, rest);
      ItemsJoin(m, a, rest, i, j);
      assert a + ItemsTokens(rest) == ItemsTokens(items);
    } else {
      items, j := NoBlockItems, k - 1;
      assert [] + Rest(m) == Rest(m) && Ahead(m, 0) == m && PopState(m) == Returned(m, 0);
    }
  }

  lemma IndentlessStep(m: Machine)
    requires Ready(m) && m.state.IndentlessSequenceEntryState? && StateMachine(m).event.Some?
    ensures m.pos < |m.tokens|
    ensures StateMachine(m) == if m.tokens[m.pos].BlockEntryToken?
                               then NodeBehind(m, EndsIndentlessItem, IndentlessSequenceEntryState, true, false)
                               else Emit(PopState(m), SequenceEndEvent)
  {
    hide NodeBehind;
  }

  lemma ItemsJoin(m: Machine, a: seq<Token>, rest: BlockItems, k: nat, j: nat)
    requires m.states != [] && m.pos + |a| <= |m.tokens| && Rest(m) == a + Rest(Ahead(m, |a|))
    requires ItemsAre(Ahead(m, |a|).(state := IndentlessSequenceEntryState), rest, k, j)
    ensures var ts := a + ItemsTokens(rest);
            && m.pos + |ts| <= |m.tokens| && Rest(m) == ts + Rest(Ahead(m, |ts|))
            && ItemsFit(rest, m.directives) && ItemsReadable(rest) && Succeeds(Returned(m, |ts|), j)
  {
    hide Succeeds, Rest, ItemsTokens, ItemsFit, ItemsReadable;
    var x, ts := Ahead(m, |a|).(state := IndentlessSequenceEntryState), a + ItemsTokens(rest);
    RestSame(x, Ahead(m, |a|));
    RestSame(Ahead(x, |ItemsTokens(rest)|), Ahead(m, |ts|));
    assert Returned(x, |ItemsTokens(rest)|) == Returned(m, |ts|);
    assert a + (ItemsTokens(rest) + Rest(Ahead(m, |ts|))) == ts + Rest(Ahead(m, |ts|));
  }

  lemma {:induction false} IndentlessNode(m: Machine, p: Props, k: nat, block: bool, indentless: bool)
      returns (t: Text, j: nat)
    requires Ready(m) && m.states != [] && Named(m.tokens) && Resolve(m.directives, p.tag).Some? && indentless
    requires var n := Ahead(m, |PropsTokens(p)|);
             && n.pos < |n.tokens| && n.tokens[n.pos].BlockEntryToken? && Rest(m) == PropsTokens(p) + Rest(n)
             && Succeeds(n.(state := IndentlessSequenceEntryState), k)
    ensures NodeIs(m, t, k, j, block, indentless)
    decreases k, 7
  {
    hide Succeeds, Rest, PropsTokens, Resolve, ItemsTokens, ItemsFit, ItemsReadable;
    var n := Ahead(m, |PropsTokens(p)|);
    var x := n.(state := IndentlessSequenceEntryState);
    var items;
    items, j := IndentlessItems(x, k);
    t := IndentlessText(p, items);
    var ts := ItemsTokens(items);
    RestSame(x, n);
    RestSame(Ahead(x, |ts|), Ahead(m, |Tokens(t)|));
    assert Returned(x, |ts|) == Returned(m, |Tokens(t)|);
    assert PropsTokens(p) + (ts + Rest(Ahead(m, |Tokens(t)|))) == Tokens(t) + Rest(Ahead(m, |Tokens(t)|));
  }

  // ---------------------------------------------------------------- flow collections

  lemma {:induction false} FlowItemsText(m: Machine, first: bool, k: nat) returns (items: FlowItems, j: nat)
    requires InCollection(m, first, FlowSequenceFirstEntryState, FlowSequenceEntryState) && Succeeds(m, k)
    ensures var n := Inner(m, first);
            && n.states != [] && n.marks != [] && EntriesAre(n, FlowItemsTokens(items, first), k, j)
            && FlowItemsFit(items, m.directives) && FlowItemsReadable(items)
    decreases k, 5
  {
    hide Succeeds, StateMachine, FlowSequenceItem, Rest, EntriesAre, Inner, Close;
    var n := Inner(m, first);
    InnerIs(m, first, FlowSequenceFirstEntryState, FlowSequenceEntryState);
    SucceedsFurther(m, k);
    FlowItemsStep(m, first);
    if n.tokens[n.pos].FlowSequenceEndToken? {
      items, j := NoFlowItems(false), k - 1;
      EntriesEnd(n, SequenceEndEvent, k);
      assert [] + [FlowSequenceEndToken] == [FlowSequenceEndToken];
    } else if first {
      items, j := FlowItemText(n, k - 1);
    } else {
      var a := Ahead(n, 1);
      items, j := FlowItemText(a, k - 1);
      RestStep(n);
      CommaInFront(items);
      EntriesJoin(n, [FlowEntryToken], n.state, FlowItemsTokens(items, true), k, k, j);
    }
  }

  lemma FlowItemsStep(m: Machine, first: bool)
    requires InCollection(m, first, FlowSequenceFirstEntryState, FlowSequenceEntryState)
    requires StateMachine(m).event.Some?
    ensures var n := Inner(m, first);
            && n.pos < |n.tokens| && !n.state.EndState? && !n.tokens[n.pos].StreamEndToken?
            && StateMachine(m) ==
               (if n.tokens[n.pos].FlowSequenceEndToken? then Close(n, SequenceEndEvent)
                else if first then FlowSequenceItem(n, n.tokens[n.pos])
                else if Ahead(n, 1).pos < |n.tokens| then FlowSequenceItem(Ahead(n, 1), n.tokens[n.pos + 1])
                else NoToken(Ahead(n, 1)))
            && (!n.tokens[n.pos].FlowSequenceEndToken? && !first ==>
                  n.tokens[n.pos].FlowEntryToken? && Ahead(n, 1).pos < |n.tokens|)
  {
    hide FlowSequenceItem, Close;
    var n := Inner(m, first);
    if n.tokens[n.pos].StreamEndToken? { FlowItemIsNoEnd(n); }
  }

  lemma FlowItemIsNoEnd(n: Machine)
    requires n.pos < |n.tokens| && n.tokens[n.pos].StreamEndToken?
    ensures FlowSequenceItem(n, n.tokens[n.pos]).event == None
  {
  }

  lemma CommaInFront(items: FlowItems)
    requires items != NoFlowItems(false)
    ensures FlowItemsTokens(items, false) == [FlowEntryToken] + FlowItemsTokens(items, true)
  {
    hide Tokens;
  }

  /** An item at the position itself, and the others behind it. */
  lemma {:induction false} FlowItemText(a: Machine, k: nat) returns (items: FlowItems, j: nat)
    requires a.states != [] && a.marks != [] && a.error == NoError && !a.ended && a.pos < |a.tokens| && Named(a.tokens)
    requires !a.state.EndState?
    requires var o := FlowSequenceItem(a, a.tokens[a.pos]); o.event.Some? && Succeeds(o.m, k)
    ensures EntriesAre(a, FlowItemsTokens(items, true), k + 1, j) && items != NoFlowItems(false)
    ensures FlowItemsFit(items, a.directives) && FlowItemsReadable(items)
    decreases k, 12
  {
    hide Succeeds, ParseNode, Rest, EntriesAre, Inner, Close, Tokens, YamlText.Fits, Readable, NodeIs, FlowItemsTokens;
    var c := a.tokens[a.pos];
    if c.KeyToken? {
      items, j := FlowSinglePairText(a, k);
    } else if !c.FlowSequenceEndToken? {
      var t, i, rest;
      t, i := NodeText(Push(a, FlowSequenceEntryState), k, false, false);
      NodeJoins(a, t, FlowSequenceEntryState, k, i, false, false);
      var x := Ahead(a, |Tokens(t)|).(state := FlowSequenceEntryState);
      SucceedsFurther(x, i);
      rest, j := FlowItemsText(x, false, i);
      InnerOfLater(x);
      items := FlowItem(t, rest);
      EntriesJoin(a, Tokens(t), FlowSequenceEntryState, FlowItemsTokens(rest, false), i, k + 1, j);
      FlowItemTokens(items);
    } else {
      items, j := NoFlowItems(true), k;
      EntriesEnd(a, SequenceEndEvent, k + 1);
      FlowItemTokens(items);
    }
  }

  lemma FlowItemTokens(items: FlowItems)
    ensures items.NoFlowItems? ==> FlowItemsTokens(items, true) == [FlowSequenceEndToken]
    ensures items.FlowItem? ==> FlowItemsTokens(items, true) == Tokens(items.node) + FlowItemsTokens(items.rest, false)
  {
    hide Tokens;
    if items.FlowItem? { NothingInFront(Tokens(items.node) + FlowItemsTokens(items.rest, false)); }
  }

  lemma SinglePairTokens(t: Text, v: Value, rest: FlowItems)
    ensures FlowItemsTokens(FlowSinglePair(Present(t), v, rest), true) ==
            [KeyToken] + Tokens(t) + ValueTokens(v) + FlowItemsTokens(rest, false)
  {
    hide Tokens, ValueTokens;
    var a, b, c := Tokens(t), ValueTokens(v), FlowItemsTokens(rest, false);
    NothingInFront([KeyToken] + (a + (b + c)));
    ThreeParts(a, b, c);
  }

  lemma NothingInFront(ts: seq<Token>)
    ensures [] + ts == ts
  {
  }

  lemma ThreeParts(a: seq<Token>, b: seq<Token>, c: seq<Token>)
    ensures [KeyToken] + (a + (b + c)) == [KeyToken] + a + b + c
  {
  }

  /** A node without an indicator in front of it. */
  lemma NodeJoins(a: Machine, t: Text, next: State, k: nat, j: nat, block: bool, indentless: bool)
    requires a.pos <= |a.tokens| && NodeIs(Push(a, next), t, k, j, block, indentless)
    ensures var l := |Tokens(t)|;
            && a.pos + l <= |a.tokens| && Rest(a) == Tokens(t) + Rest(Ahead(a, l)) && j <= k
            && YamlText.Fits(t, a.directives, block, indentless) && Readable(t)
            && Succeeds(Ahead(a, l).(state := next), j)
  {
    hide Succeeds, Rest, YamlText.Fits, Readable, Tokens;
    PushReturnedHere(a, next, |Tokens(t)|);
    RestSame(a, Push(a, next));
    RestSame(Ahead(Push(a, next), |Tokens(t)|), Ahead(a, |Tokens(t)|));
  }

  /** A pair in a flow sequence: its key is there, since no token is skipped. */
  lemma {:induction false} FlowSinglePairText(a: Machine, k: nat) returns (items: FlowItems, j: nat)
    requires a.states != [] && a.marks != [] && a.error == NoError && !a.ended && a.pos < |a.tokens| && Named(a.tokens)
    requires a.tokens[a.pos].KeyToken? && Succeeds(Ahead(a, 1).(state := FlowSequenceEntryMappingKeyState), k)
    ensures EntriesAre(a, FlowItemsTokens(items, true), k + 1, j) && items != NoFlowItems(false)
    ensures FlowItemsFit(items, a.directives) && FlowItemsReadable(items)
    decreases k, 11
  {
    hide Succeeds, StateMachine, ParseNode, Rest, EntriesAre, Inner, Tokens, YamlText.Fits, Readable, NodeIs,
      FlowItemsTokens, ValueTokens, ValueFits, ValueReadable, ValueIs;
    var key, value, end := FlowSequenceEntryMappingKeyState, FlowSequenceEntryMappingValueState,
        FlowSequenceEntryMappingEndState;
    var b := Ahead(a, 1).(state := key);
    SucceedsFurther(b, k);
    PairKeyStep(b);
    var t, i, v, h, rest;
    t, i := NodeText(Push(b, value), k - 1, false, false);
    NodeJoins(b, t, value, k - 1, i, false, false);
    RestStep(a);
    KeyJoins(a, key, t);
    var c := [KeyToken] + Tokens(t);
    var x := Ahead(a, |c|).(state := value);
    assert x == Ahead(b, |Tokens(t)|).(state := value);
    PairValueStep(x);
    v, h := ValueText(x, EndsPairInSequence, end, i, false, false);
    ValueJoins(a, c, value, v, end, i, h, false, false);
    var d := c + ValueTokens(v);
    var y := Ahead(a, |d|).(state := end);
    SucceedsFurther(y, h);
    PairEndStep(y);
    var z := Ahead(a, |d|).(state := FlowSequenceEntryState);
    SucceedsFurther(z, h - 1);
    rest, j := FlowItemsText(z, false, h - 1);
    InnerOfLater(z);
    items := FlowSinglePair(Present(t), v, rest);
    EntriesJoin(a, d, FlowSequenceEntryState, FlowItemsTokens(rest, false), h - 1, k + 1, j);
    SinglePairTokens(t, v, rest);
  }

  lemma KeyJoins(a: Machine, s: State, t: Text)
    requires a.pos < |a.tokens| && a.tokens[a.pos].KeyToken?
    requires var b := Ahead(a, 1).(state := s);
             b.pos + |Tokens(t)| <= |b.tokens| && Rest(b) == Tokens(t) + Rest(Ahead(b, |Tokens(t)|))
    ensures var c := [KeyToken] + Tokens(t); a.pos + |c| <= |a.tokens| && Rest(a) == c + Rest(Ahead(a, |c|))
  {
    hide Tokens, Rest;
    var b, c := Ahead(a, 1).(state := s), [KeyToken] + Tokens(t);
    RestStep(a);
    RestSame(b, Ahead(a, 1));
    RestSame(Ahead(b, |Tokens(t)|), Ahead(a, |c|));
    assert [KeyToken] + (Tokens(t) + Rest(Ahead(a, |c|))) == c + Rest(Ahead(a, |c|));
  }

  lemma PairKeyStep(b: Machine)
    requires b.state.FlowSequenceEntryMappingKeyState? && StateMachine(b).event.Some? && !SkipsToken(b)
    requires b.pos <= |b.tokens|
    ensures b.pos < |b.tokens|
    ensures StateMachine(b) == ParseNode(Push(b, FlowSequenceEntryMappingValueState), false, false)
  {
    hide ParseNode;
  }

  lemma PairValueStep(x: Machine)
    requires x.state.FlowSequenceEntryMappingValueState?
    ensures x.pos < |x.tokens| ==>
              StateMachine(x) == if x.tokens[x.pos].ValueToken?
                                 then NodeBehind(x, EndsPairInSequence, FlowSequenceEntryMappingEndState, false, false)
                                 else EmitEmpty(x.(state := FlowSequenceEntryMappingEndState))
    ensures x.pos >= |x.tokens| ==> StateMachine(x).event == None
  {
    hide NodeBehind;
  }

  lemma PairEndStep(y: Machine)
    requires y.state.FlowSequenceEntryMappingEndState? && StateMachine(y).event.Some?
    ensures StateMachine(y).m == y.(state := FlowSequenceEntryState)
  {
  }

  lemma {:induction false} FlowPairsText(m: Machine, first: bool, k: nat) returns (pairs: FlowPairs, j: nat)
    requires InCollection(m, first, FlowMappingFirstKeyState, FlowMappingKeyState) && Succeeds(m, k)
    ensures var n := Inner(m, first);
            && n.states != [] && n.marks != [] && EntriesAre(n, FlowPairsTokens(pairs, first), k, j)
            && FlowPairsFit(pairs, m.directives) && FlowPairsReadable(pairs)
    decreases k, 5
  {
    hide Succeeds, StateMachine, FlowMappingItem, Rest, EntriesAre, Inner, Close;
    var n := Inner(m, first);
    InnerIs(m, first, FlowMappingFirstKeyState, FlowMappingKeyState);
    SucceedsFurther(m, k);
    FlowPairsStep(m, first);
    if n.tokens[n.pos].FlowMappingEndToken? {
      pairs, j := NoFlowPairs(false), k - 1;
      EntriesEnd(n, MappingEndEvent, k);
      assert [] + [FlowMappingEndToken] == [FlowMappingEndToken];
    } else if first {
      pairs, j := FlowPairText(n, k - 1);
    } else {
      var a := Ahead(n, 1);
      pairs, j := FlowPairText(a, k - 1);
      RestStep(n);
      CommaInFrontOfPair(pairs);
      EntriesJoin(n, [FlowEntryToken], n.state, FlowPairsTokens(pairs, true), k, k, j);
    }
  }

  lemma FlowPairsStep(m: Machine, first: bool)
    requires InCollection(m, first, FlowMappingFirstKeyState, FlowMappingKeyState)
    requires StateMachine(m).event.Some?
    ensures var n := Inner(m, first);
            && n.pos < |n.tokens| && !n.state.EndState? && !n.tokens[n.pos].StreamEndToken?
            && StateMachine(m) ==
               (if n.tokens[n.pos].FlowMappingEndToken? then Close(n, MappingEndEvent)
                else if first then FlowMappingItem(n, n.tokens[n.pos])
                else if Ahead(n, 1).pos < |n.tokens| then FlowMappingItem(Ahead(n, 1), n.tokens[n.pos + 1])
                else NoToken(Ahead(n, 1)))
            && (!n.tokens[n.pos].FlowMappingEndToken? && !first ==>
                  n.tokens[n.pos].FlowEntryToken? && Ahead(n, 1).pos < |n.tokens|)
  {
    hide FlowMappingItem, Close;
    var n := Inner(m, first);
    if n.tokens[n.pos].StreamEndToken? { FlowPairIsNoEnd(n); }
  }

  lemma FlowPairIsNoEnd(n: Machine)
    requires n.pos < |n.tokens| && n.tokens[n.pos].StreamEndToken?
    ensures FlowMappingItem(n, n.tokens[n.pos]).event == None
  {
  }

  lemma CommaInFrontOfPair(pairs: FlowPairs)
    requires pairs != NoFlowPairs(false)
    ensures FlowPairsTokens(pairs, false) == [FlowEntryToken] + FlowPairsTokens(pairs, true)
  {
    hide Tokens;
  }

  lemma {:induction false} FlowPairText(a: Machine, k: nat) returns (pairs: FlowPairs, j: nat)
    requires a.states != [] && a.marks != [] && a.error == NoError && !a.ended && a.pos < |a.tokens| && Named(a.tokens)
    requires !a.state.EndState?
    requires var o := FlowMappingItem(a, a.tokens[a.pos]); o.event.Some? && Succeeds(o.m, k)
    ensures EntriesAre(a, FlowPairsTokens(pairs, true), k + 1, j) && pairs != NoFlowPairs(false)
    ensures FlowPairsFit(pairs, a.directives) && FlowPairsReadable(pairs)
    decreases k, 12
  {
    hide Succeeds, StateMachine, ParseNode, NodeBehind, Rest, EntriesAre, Inner, Close, Tokens, YamlText.Fits, Readable,
      NodeIs, FlowPairsTokens, PlaceTokens, PlaceFits, PlaceReadable, PlaceIs, ValueTokens, ValueFits, ValueReadable,
      ValueIs;
    var c := a.tokens[a.pos];
    if c.KeyToken? {
      var key, i, v, h, rest;
      key, i := PlaceText(a, EndsFlowKey, FlowMappingValueState, k, false, false);
      PlaceJoins(a, key, FlowMappingValueState, k, i, false, false);
      var b := [KeyToken] + PlaceTokens(key);
      var x := Ahead(a, |b|).(state := FlowMappingValueState);
      FlowValueStep(x);
      v, h := ValueText(x, EndsFlowValue, FlowMappingKeyState, i, false, false);
      ValueJoins(a, b, FlowMappingValueState, v, FlowMappingKeyState, i, h, false, false);
      var d := b + ValueTokens(v);
      var y := Ahead(a, |d|).(state := FlowMappingKeyState);
      SucceedsFurther(y, h);
      rest, j := FlowPairsText(y, false, h);
      InnerOfLater(y);
      pairs := FlowPair(key, v, rest);
      EntriesJoin(a, d, FlowMappingKeyState, FlowPairsTokens(rest, false), h, k + 1, j);
      PairTokens(key, v, rest);
    } else if !c.FlowMappingEndToken? {
      var t, i, rest;
      t, i := NodeText(Push(a, FlowMappingEmptyValueState), k, false, false);
      NodeJoins(a, t, FlowMappingEmptyValueState, k, i, false, false);
      var x := Ahead(a, |Tokens(t)|).(state := FlowMappingEmptyValueState);
      SucceedsFurther(x, i);
      EmptyValueStep(x);
      var y := Ahead(a, |Tokens(t)|).(state := FlowMappingKeyState);
      SucceedsFurther(y, i - 1);
      rest, j := FlowPairsText(y, false, i - 1);
      InnerOfLater(y);
      pairs := FlowKeyOnly(t, rest);
      EntriesJoin(a, Tokens(t), FlowMappingKeyState, FlowPairsTokens(rest, false), i - 1, k + 1, j);
      FlowPairTokens(pairs);
    } else {
      pairs, j := NoFlowPairs(true), k;
      EntriesEnd(a, MappingEndEvent, k + 1);
      FlowPairTokens(pairs);
    }
  }

  lemma FlowPairTokens(pairs: FlowPairs)
    ensures pairs.NoFlowPairs? ==> FlowPairsTokens(pairs, true) == [FlowMappingEndToken]
    ensures pairs.FlowKeyOnly? ==>
              FlowPairsTokens(pairs, true) == Tokens(pairs.node) + FlowPairsTokens(pairs.rest, false)
  {
    hide Tokens;
    if pairs.FlowKeyOnly? { NothingInFront(Tokens(pairs.node) + FlowPairsTokens(pairs.rest, false)); }
  }

  lemma PairTokens(key: Place, v: Value, rest: FlowPairs)
    ensures FlowPairsTokens(FlowPair(key, v, rest), true) ==
            [KeyToken] + PlaceTokens(key) + ValueTokens(v) + FlowPairsTokens(rest, false)
  {
    hide PlaceTokens, ValueTokens;
    var a, b, c := PlaceTokens(key), ValueTokens(v), FlowPairsTokens(rest, false);
    NothingInFront([KeyToken] + (a + (b + c)));
    ThreeParts(a, b, c);
  }

  lemma FlowValueStep(x: Machine)
    requires x.state.FlowMappingValueState?
    ensures x.pos < |x.tokens| ==>
              StateMachine(x) == if x.tokens[x.pos].ValueToken?
                                 then NodeBehind(x, EndsFlowValue, FlowMappingKeyState, false, false)
                                 else EmitEmpty(x.(state := FlowMappingKeyState))
    ensures x.pos >= |x.tokens| ==> StateMachine(x).event == None
  {
    hide NodeBehind;
  }

  lemma EmptyValueStep(x: Machine)
    requires x.state.FlowMappingEmptyValueState? && StateMachine(x).event.Some?
    ensures StateMachine(x).m == x.(state := FlowMappingKeyState)
  {
  }

  // ---------------------------------------------------------------- documents

  lemma {:induction false} EndsText(m: Machine) returns (e: nat)
    requires Ready(m)
    ensures var b := SkipDocumentEnds(m);
            && b == Ahead(m, e) && m.pos + e <= |m.tokens| && Rest(m) == Ends(e) + Rest(b)
    decreases |m.tokens| - m.pos
  {
    hide Rest;
    if Peek(m) == Some(DocumentEndToken) {
      RestStep(m);
      e := EndsText(Skip(m));
      assert Skip(m) == Ahead(m, 1);
      assert [DocumentEndToken] + (Ends(e) + Rest(Ahead(m, e + 1))) == Ends(e + 1) + Rest(Ahead(m, e + 1));
      e := e + 1;
    } else {
      e := 0;
      assert Ahead(m, 0) == m && [] + Rest(m) == Rest(m);
    }
  }

  lemma {:induction false} DirectivesText(b: Machine, version: bool, tags: seq<TagDirective>) returns (ts: seq<Token>)
    requires Ready(b) && ProcessDirectives(b, version, tags).m.error == NoError
    ensures DirectivesFit(ts, version, b.directives) && b.pos + |ts| < |b.tokens|
    ensures Rest(b) == ts + Rest(Ahead(b, |ts|))
    ensures var t := b.tokens[b.pos + |ts|]; !t.VersionDirectiveToken? && !t.TagDirectiveToken?
    decreases |b.tokens| - b.pos
  {
    hide Rest, WithDefaults;
    RestStep(b);
    var t := b.tokens[b.pos];
    if t.VersionDirectiveToken? {
      ts := DirectivesText(Skip(b), true, tags);
      assert Skip(b) == Ahead(b, 1) && Ahead(Ahead(b, 1), |ts|) == Ahead(b, 1 + |ts|);
      MoreDirectives(t, ts, Rest(Ahead(b, 1 + |ts|)));
      ts := [t] + ts;
    } else if t.TagDirectiveToken? {
      var x := Skip(b.(directives := b.directives + [t.directive]));
      ts := DirectivesText(x, version, tags + [t.directive]);
      RestSame(x, Ahead(b, 1));
      RestSame(Ahead(x, |ts|), Ahead(b, 1 + |ts|));
      MoreDirectives(t, ts, Rest(Ahead(b, 1 + |ts|)));
      ts := [t] + ts;
    } else {
      ts := [];
      assert Ahead(b, 0) == b && [] + Rest(b) == Rest(b);
    }
  }

  lemma MoreDirectives(t: Token, ts: seq<Token>, r: seq<Token>)
    ensures [t] + (ts + r) == [t] + ts + r && ([t] + ts)[0] == t && ([t] + ts)[1..] == ts
  {
  }

  /** Between two documents, or before the first. */
  predicate BetweenDocuments(m: Machine, first: bool) {
    && m.states == [] && m.directives == [] && Named(m.tokens)
    && m.state == if first then ImplicitDocumentStartState else DocumentStartState
  }

  /** A root has been read, or nothing in its place; `c` is in front of it. */
  predicate RootIs(c: Machine, root: Place, k: nat, j: nat) {
    && j < k && c.pos + |PlaceTokens(root)| <= |c.tokens|
    && Rest(c) == PlaceTokens(root) + Rest(Ahead(c, |PlaceTokens(root)|))
    && PlaceFits(root, c.directives, true, false) && PlaceReadable(root)
    && Succeeds(Ahead(c, |PlaceTokens(root)|).(state := DocumentEndState, states := []), j)
  }

  lemma {:induction false} RootText(c: Machine, k: nat) returns (root: Place, j: nat)
    requires (c.state.DocumentContentState? || c.state.BlockNodeState?) && c.states == [DocumentEndState]
    requires Named(c.tokens) && Succeeds(c, k)
    ensures RootIs(c, root, k, j) && (c.state.BlockNodeState? ==> root.Present?)
  {
    hide Succeeds, StateMachine, ParseNode, Rest, Tokens, YamlText.Fits, Readable, NodeIs;
    SucceedsFurther(c, k);
    RootStep(c);
    if StateMachine(c) == EmitEmpty(PopState(c)) && c.state.DocumentContentState? {
      root, j := Absent, k - 1;
      assert [] + Rest(c) == Rest(c) && Ahead(c, 0) == c;
    } else {
      var t;
      t, j := NodeText(c, k - 1, true, false);
      root := Present(t);
      RootFromNode(c, t, k, j);
    }
  }

  lemma RootStep(c: Machine)
    requires Ready(c) && (c.state.DocumentContentState? || c.state.BlockNodeState?) && StateMachine(c).event.Some?
    ensures StateMachine(c) == ParseNode(c, true, false) ||
            (c.state.DocumentContentState? && StateMachine(c) == EmitEmpty(PopState(c)))
  {
    hide ParseNode;
  }

  lemma RootFromNode(c: Machine, t: Text, k: nat, j: nat)
    requires c.states == [DocumentEndState] && k > 0 && NodeIs(c, t, k - 1, j, true, false)
    ensures RootIs(c, Present(t), k, j)
  {
    hide Succeeds, Rest, Tokens, YamlText.Fits, Readable;
    assert Init([DocumentEndState]) == [];
  }

  /** What is read from here on is documents, up to the end of the stream. */
  lemma {:induction false} DocumentsText(m: Machine, first: bool, k: nat)
      returns (e: nat, docs: seq<DocumentText>, tail: seq<Token>)
    requires BetweenDocuments(m, first) && Succeeds(m, k)
    ensures Rest(m) == Ends(e) + (DocumentsTokens(docs) + tail) && (first ==> e == 0)
    ensures DocumentsFit(docs, first) && DocumentsReadable(docs)
    decreases k
  {
    hide Succeeds, StateMachine, Rest, ImplicitDocument, ExplicitDocument, PlaceTokens, PlaceFits, PlaceReadable,
      RootIs, DirectivesFit;
    SucceedsFurther(m, k);
    var b := m;
    e := 0;
    assert Ends(0) + Rest(m) == Rest(m);
    if !first {
      e := EndsText(m);
      b := Ahead(m, e);
    }
    StartStep(m, b, first);
    var t := b.tokens[b.pos];
    if t.StreamEndToken? {
      RestStep(b);
      docs, tail := [], Rest(Ahead(b, 1));
    } else {
      var ts, c := OpeningText(m, b, first);
      var root, j := RootText(c, k - 1);
      var x := Ahead(c, |PlaceTokens(root)|).(state := DocumentEndState, states := []);
      RootPlace(c, root, k - 1, j);
      var more, rest;
      more, rest, tail := RestOfStream(x, j);
      var d := DocumentText(!c.state.BlockNodeState?, ts, root, more);
      docs := [d] + rest;
      DocumentJoins(b, c, d, rest, tail);
      FirstDocument(d, rest, first);
    }
  }

  lemma StartStep(m: Machine, b: Machine, first: bool)
    requires BetweenDocuments(m, first) && Ready(m) && StateMachine(m).event.Some?
    requires b == if first then m else SkipDocumentEnds(m)
    ensures b.pos < |b.tokens|
    ensures StateMachine(m) ==
            if first && !StartsDocument(b.tokens[b.pos]) && !b.tokens[b.pos].StreamEndToken? then ImplicitDocument(b)
            else if !b.tokens[b.pos].StreamEndToken? then ExplicitDocument(b)
            else Emit(Skip(b.(state := EndState)), StreamEndEvent)
  {
    hide ImplicitDocument, ExplicitDocument;
  }

  /** The directives and the indicator of a document, or nothing. */
  lemma OpeningText(m: Machine, b: Machine, first: bool) returns (ts: seq<Token>, c: Machine)
    requires BetweenDocuments(m, first) && Ready(m) && StateMachine(m).event.Some?
    requires b == if first then m else SkipDocumentEnds(m)
    requires Ready(b) && b.pos < |b.tokens| && !b.tokens[b.pos].StreamEndToken?
    ensures c == StateMachine(m).m && c.tokens == m.tokens && c.states == [DocumentEndState]
    ensures c.state.BlockNodeState? || c.state.DocumentContentState?
    ensures DirectivesFit(ts, false, []) && c.directives == WithDefaults(TagsOf(ts))
    ensures c.state.BlockNodeState? ==> first && ts == [] && Rest(b) == Rest(c)
    ensures c.state.DocumentContentState? ==> Rest(b) == ts + ([DocumentStartToken] + Rest(c))
  {
    hide Rest, WithDefaults, ProcessDirectives, DirectivesFit;
    StartStep(m, b, first);
    c := StateMachine(m).m;
    assert b.directives == [] && b.states == [] && b.states + [DocumentEndState] == [DocumentEndState];
    if first && !StartsDocument(b.tokens[b.pos]) {
      ts := [];
      NoDirectivesLeft(b, false, []);
      RestSame(b, c);
      NoDirectives();
      assert b.directives + TagsOf([]) == [];
    } else {
      ts := DirectivesText(b, false, []);
      var a := Ahead(b, |ts|);
      RestNotEmpty(a);
      DirectivesRead(b, ts, Rest(a), false, []);
      RestStep(a);
      RestSame(Ahead(a, 1), c);
      assert b.directives + TagsOf(ts) == TagsOf(ts);
    }
  }

  lemma NoDirectives()
    ensures DirectivesFit([], false, []) && TagsOf([]) == []
  {
  }

  lemma RestNotEmpty(a: Machine)
    requires a.pos < |a.tokens|
    ensures Rest(a) != [] && Rest(a)[0] == a.tokens[a.pos]
  {
  }

  lemma RootPlace(c: Machine, root: Place, k: nat, j: nat)
    requires RootIs(c, root, k, j)
    ensures var x := Ahead(c, |PlaceTokens(root)|).(state := DocumentEndState, states := []);
            Succeeds(x, j) && j < k && Rest(c) == PlaceTokens(root) + Rest(x)
    ensures PlaceFits(root, c.directives, true, false) && PlaceReadable(root)
  {
    hide Rest, Succeeds, PlaceTokens, PlaceFits, PlaceReadable;
    RestSame(Ahead(c, |PlaceTokens(root)|), Ahead(c, |PlaceTokens(root)|).(state := DocumentEndState, states := []));
  }

  /** The end of a document, and the documents behind it. */
  lemma {:induction false} RestOfStream(x: Machine, k: nat)
      returns (e: nat, docs: seq<DocumentText>, tail: seq<Token>)
    requires x.state.DocumentEndState? && x.states == [] && Named(x.tokens) && Succeeds(x, k)
    ensures Rest(x) == Ends(e) + (DocumentsTokens(docs) + tail)
    ensures DocumentsFit(docs, false) && DocumentsReadable(docs)
    decreases k
  {
    hide Succeeds, StateMachine, Rest, DocumentsTokens, DocumentsFit, DocumentsReadable;
    SucceedsFurther(x, k);
    EndStep(x);
    var y := StateMachine(x).m;
    e, docs, tail := DocumentsText(y, false, k - 1);
    if x.tokens[x.pos].DocumentEndToken? {
      RestStep(x);
      RestSame(Ahead(x, 1), y);
      assert [DocumentEndToken] + (Ends(e) + (DocumentsTokens(docs) + tail)) ==
             Ends(e + 1) + (DocumentsTokens(docs) + tail);
      e := e + 1;
    } else {
      RestSame(x, y);
    }
  }

  lemma EndStep(x: Machine)
    requires Ready(x) && x.state.DocumentEndState? && x.states == [] && StateMachine(x).event.Some?
    ensures x.pos < |x.tokens|
    ensures var y := StateMachine(x).m;
            && y.state.DocumentStartState? && y.states == [] && y.directives == [] && y.tokens == x.tokens
            && y.pos == x.pos + (if x.tokens[x.pos].DocumentEndToken? then 1 else 0)
  {
  }

  lemma DocumentJoins(b: Machine, c: Machine, d: DocumentText, rest: seq<DocumentText>, tail: seq<Token>)
    requires Rest(b) == if d.explicit then d.directives + ([DocumentStartToken] + Rest(c)) else Rest(c)
    requires Rest(c) == PlaceTokens(d.root) + (Ends(d.ends) + (DocumentsTokens(rest) + tail))
    ensures Rest(b) == DocumentsTokens([d] + rest) + tail
  {
    hide Rest, PlaceTokens;
    var docs := [d] + rest;
    assert docs[0] == d && docs[1..] == rest;
    var p, q := PlaceTokens(d.root), Ends(d.ends);
    var r := DocumentsTokens(rest);
    assert p + (q + (r + tail)) == p + (q + r) + tail;
    if d.explicit {
      var s := d.directives;
      assert s + ([DocumentStartToken] + (p + (q + r) + tail)) == s + [DocumentStartToken] + (p + (q + r)) + tail;
    } else {
      assert [] + (p + (q + r)) == p + (q + r);
    }
  }

  lemma FirstDocument(d: DocumentText, rest: seq<DocumentText>, first: bool)
    requires d.explicit || (first && d.root.Present? && d.directives == [])
    requires DirectivesFit(d.directives, false, []) && PlaceFits(d.root, Handles(d), true, false)
    requires DocumentsFit(rest, false) && PlaceReadable(d.root) && DocumentsReadable(rest)
    ensures DocumentsFit([d] + rest, first) && DocumentsReadable([d] + rest)
  {
    hide DirectivesFit, PlaceFits, PlaceReadable;
    var docs := [d] + rest;
    assert docs[0] == d && docs[1..] == rest;
  }

  // ---------------------------------------------------------------- the stream

  /** `n` steps read the tokens to the end of the stream, and none of them skips a token. */
  predicate ReadsThrough(tokens: seq<Token>, n: nat) {
    && RunFor(tokens, n).m.state.EndState? && RunFor(tokens, n).m.error == NoError
    && forall i :: 0 <= i < n ==> !SkipsToken(RunFor(tokens, i).m)
  }

  /** A run that has come to a halt stays where it is. */
  lemma {:induction false} Halted(tokens: seq<Token>, i: nat, n: nat)
    requires i <= n
    requires var m := RunFor(tokens, i).m; m.ended || m.error != NoError || m.state.EndState?
    ensures RunFor(tokens, n).m == RunFor(tokens, i).m
    decreases n
  {
    hide StateMachine;
    if i < n { Halted(tokens, i, n - 1); }
  }

  /** As long as the end has not been reached, there is a step. */
  lemma StillGoing(tokens: seq<Token>, i: nat, n: nat)
    requires i <= n && ReadsThrough(tokens, n) && !RunFor(tokens, i).m.state.EndState?
    ensures var m := RunFor(tokens, i).m;
            && i < n && Ready(m) && !SkipsToken(m) && StateMachine(m).event.Some?
            && RunFor(tokens, i + 1).m == StateMachine(m).m
  {
    hide StateMachine, YamlParseSafety.Fits;
    var m := RunFor(tokens, i).m;
    EveryRunFits(tokens, i);
    if m.ended || m.error != NoError { Halted(tokens, i, n); }
    FitsInside(m);
    StateMachineAdvances(m);
    if StateMachine(m).event == None { Halted(tokens, i + 1, n); }
  }

  lemma FitsInside(m: Machine)
    requires YamlParseSafety.Fits(m)
    ensures m.pos <= |m.tokens|
  {
  }

  lemma {:induction false} RunSucceeds(tokens: seq<Token>, i: nat, n: nat) returns (k: nat)
    requires i <= n && ReadsThrough(tokens, n)
    ensures Succeeds(RunFor(tokens, i).m, k)
    decreases n - i
  {
    hide StateMachine, RunFor;
    if RunFor(tokens, i).m.state.EndState? {
      Halted(tokens, i, n);
      k := 0;
    } else {
      StillGoing(tokens, i, n);
      k := RunSucceeds(tokens, i + 1, n);
      k := k + 1;
    }
  }

  /**
   Whatever the parser reads to the end without skipping a token is a readable stream of the grammar, perhaps with
   tokens behind the end of the stream that it never looks at.
   */
  lemma OnlyStreamsAreRead(tokens: seq<Token>, n: nat) returns (docs: seq<DocumentText>, tail: seq<Token>)
    requires Named(tokens) && ReadsThrough(tokens, n)
    ensures tokens == StreamTokens(docs) + tail && DocumentsFit(docs, true) && DocumentsReadable(docs)
  {
    hide StateMachine, Succeeds, DocumentsTokens, DocumentsFit, DocumentsReadable, Rest;
    var k := RunSucceeds(tokens, 0, n);
    var b := Begin(tokens);
    SucceedsFurther(b, k);
    StreamStep(b);
    var m := StateMachine(b).m;
    var e;
    e, docs, tail := DocumentsText(m, true, k - 1);
    RestStep(b);
    RestSame(Ahead(b, 1), m);
    WholeRest(tokens);
    assert Ends(0) + (DocumentsTokens(docs) + tail) == DocumentsTokens(docs) + tail;
    assert [StreamStartToken] + (DocumentsTokens(docs) + tail) == StreamTokens(docs) + tail;
  }

  lemma StreamStep(b: Machine)
    requires Ready(b) && b.state.StreamStartState? && StateMachine(b).event.Some?
    requires b.states == [] && b.directives == []
    ensures b.pos < |b.tokens| && b.tokens[b.pos] == StreamStartToken
    ensures var m := StateMachine(b).m;
            && m.state.ImplicitDocumentStartState? && m.states == [] && m.directives == [] && m.tokens == b.tokens
            && m.pos == b.pos + 1
  {
  }

  lemma WholeRest(tokens: seq<Token>)
    ensures Rest(Begin(tokens)) == tokens
  {
  }
}
