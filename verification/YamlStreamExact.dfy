/**
 Exactly which streams of the token grammar the parser reads.  A stream is read to its events if and only if no block
 mapping holds a VALUE without KEY and no flow sequence a key without a node, but for two harmless shapes.
 */
module YamlStreamExact {
  import opened Common
  import opened YamlEvents
  import opened YamlParse
  import opened YamlParseSafety
  import opened YamlParseProgress
  import opened YamlParseBrackets
  import opened YamlText
  import opened YamlTextParse
  import opened YamlStreamParse

  // ---------------------------------------------------------------- the tokens of texts

  /** The tokens open `n` collections more than they close, and the stream does not end among them. */
  ghost predicate Opens(ts: seq<Token>, n: int) {
    Net(ts) == n && forall i :: 0 <= i < |ts| ==> !ts[i].StreamEndToken?
  }

  lemma OpensConcat(a: seq<Token>, m: int, b: seq<Token>, n: int)
    requires Opens(a, m) && Opens(b, n)
    ensures Opens(a + b, m + n)
  {
    NetConcat(a, b);
  }

  lemma OpensOne(t: Token)
    requires !t.StreamEndToken?
    ensures Opens([t], Weight(t))
  {
    NetStep([t], 0);
    assert [t][..1] == [t] && [t][..0] == [];
  }

  lemma OpensNone()
    ensures Opens([], 0)
  {
  }

  lemma PropsOpen(p: Props)
    ensures Opens(PropsTokens(p), 0)
  {
    hide Opens;
    OpensNone();
    var a := AnchorToken(p.anchor);
    OpensOne(a);
    if p.tag.Some? {
      var t := TagToken(p.tag.value.0, p.tag.value.1);
      OpensOne(t);
      OpensConcat([a], 0, [t], 0);
      OpensConcat([t], 0, [a], 0);
    }
    assert forall s: seq<Token> :: s + [] == s && [] + s == s;
  }

  /** A collection with its opening and closing tokens. */
  lemma WrapOpens(p: Props, open: Token, inner: seq<Token>)
    requires Weight(open) == 1 && Opens(inner, -1)
    ensures Opens(PropsTokens(p) + [open] + inner, 0)
  {
    hide Opens, PropsTokens;
    PropsOpen(p);
    OpensOne(open);
    OpensConcat(PropsTokens(p), 0, [open], 1);
    OpensConcat(PropsTokens(p) + [open], 1, inner, -1);
  }

  lemma CloseOpens(inner: seq<Token>)
    requires Opens(inner, 0)
    ensures Opens(inner + [BlockEndToken], -1)
  {
    hide Opens;
    OpensOne(BlockEndToken);
    OpensConcat(inner, 0, [BlockEndToken], -1);
  }

  /** An indicator in front. */
  lemma BehindOpens(t: Token, a: seq<Token>, n: int)
    requires Opens(a, n) && Weight(t) == 0 && !t.StreamEndToken?
    ensures Opens([t] + a, n)
  {
    hide Opens;
    OpensOne(t);
    OpensConcat([t], 0, a, n);
  }

  lemma {:induction false} TextOpens(t: Text)
    ensures Opens(Tokens(t), 0)
    decreases t
  {
    hide Opens, PropsTokens;
    match t
    case AliasText(name) => OpensOne(AliasToken(name));
    case ScalarText(p, v, s) =>
      PropsOpen(p);
      OpensOne(ScalarToken(v, s));
      OpensConcat(PropsTokens(p), 0, [ScalarToken(v, s)], 0);
    case BareText(p) => PropsOpen(p);
    case BlockSequenceText(p, items) =>
      ItemsOpen(items);
      CloseOpens(ItemsTokens(items));
      WrapOpens(p, BlockSequenceStartToken, ItemsTokens(items) + [BlockEndToken]);
    case IndentlessText(p, items) =>
      PropsOpen(p);
      ItemsOpen(items);
      OpensConcat(PropsTokens(p), 0, ItemsTokens(items), 0);
    case BlockMappingText(p, pairs) =>
      PairsOpen(pairs);
      CloseOpens(PairsTokens(pairs));
      WrapOpens(p, BlockMappingStartToken, PairsTokens(pairs) + [BlockEndToken]);
    case FlowSequenceText(p, items) =>
      FlowItemsOpen(items, true);
      WrapOpens(p, FlowSequenceStartToken, FlowItemsTokens(items, true));
    case FlowMappingText(p, pairs) =>
      FlowPairsOpen(pairs, true);
      WrapOpens(p, FlowMappingStartToken, FlowPairsTokens(pairs, true));
  }

  lemma {:induction false} PlaceOpens(p: Place)
    ensures Opens(PlaceTokens(p), 0)
    decreases p
  {
    hide Opens;
    OpensNone();
    if p.Present? { TextOpens(p.text); }
  }

  lemma {:induction false} ValueOpens(v: Value)
    ensures Opens(ValueTokens(v), 0)
    decreases v, 0
  {
    hide Opens;
    OpensNone();
    if v.HasValue? {
      PlaceOpens(v.place);
      BehindOpens(ValueToken, PlaceTokens(v.place), 0);
    }
  }

  lemma {:induction false} ItemsOpen(items: BlockItems)
    ensures Opens(ItemsTokens(items), 0)
    decreases items
  {
    hide Opens;
    OpensNone();
    if items.BlockItem? {
      PlaceOpens(items.node);
      ItemsOpen(items.rest);
      OpensConcat(PlaceTokens(items.node), 0, ItemsTokens(items.rest), 0);
      BehindOpens(BlockEntryToken, PlaceTokens(items.node) + ItemsTokens(items.rest), 0);
    }
  }

  lemma {:induction false} PairsOpen(pairs: BlockPairs)
    ensures Opens(PairsTokens(pairs), 0)
    decreases pairs
  {
    hide Opens;
    OpensNone();
    match pairs
    case NoBlockPairs =>
    case BlockPair(k, v, rest) =>
      PlaceOpens(k);
      PairsOpen(rest);
      KeyOpens(k, v, PairsTokens(rest), 0);
    case LoneValue(node, rest) =>
      PlaceOpens(node);
      PairsOpen(rest);
      OpensConcat(PlaceTokens(node), 0, PairsTokens(rest), 0);
      BehindOpens(ValueToken, PlaceTokens(node) + PairsTokens(rest), 0);
  }

  /** KEY node? (VALUE node?)?, and what follows. */
  lemma {:induction false} KeyOpens(k: Place, v: Value, rest: seq<Token>, n: int)
    requires Opens(PlaceTokens(k), 0) && Opens(rest, n)
    ensures Opens([KeyToken] + (PlaceTokens(k) + (ValueTokens(v) + rest)), n)
    decreases v, 1
  {
    hide Opens;
    ValueOpens(v);
    OpensConcat(ValueTokens(v), 0, rest, n);
    OpensConcat(PlaceTokens(k), 0, ValueTokens(v) + rest, n);
    BehindOpens(KeyToken, PlaceTokens(k) + (ValueTokens(v) + rest), n);
  }

  lemma CommaOpens(first: bool, a: seq<Token>, n: int)
    requires Opens(a, n)
    ensures Opens(Comma(first) + a, n)
  {
    hide Opens;
    if first { assert [] + a == a; } else { BehindOpens(FlowEntryToken, a, n); }
  }

  lemma {:induction false} FlowItemsOpen(items: FlowItems, first: bool)
    ensures Opens(FlowItemsTokens(items, first), -1)
    decreases items
  {
    hide Opens, Comma;
    match items
    case NoFlowItems(comma) =>
      OpensOne(FlowSequenceEndToken);
      CommaOpens(first || !comma, [FlowSequenceEndToken], -1);
    case FlowItem(t, rest) =>
      TextOpens(t);
      FlowItemsOpen(rest, false);
      OpensConcat(Tokens(t), 0, FlowItemsTokens(rest, false), -1);
      CommaOpens(first, Tokens(t) + FlowItemsTokens(rest, false), -1);
    case FlowSinglePair(k, v, rest) =>
      PlaceOpens(k);
      FlowItemsOpen(rest, false);
      KeyOpens(k, v, FlowItemsTokens(rest, false), -1);
      CommaOpens(first, [KeyToken] + (PlaceTokens(k) + (ValueTokens(v) + FlowItemsTokens(rest, false))), -1);
  }

  lemma {:induction false} FlowPairsOpen(pairs: FlowPairs, first: bool)
    ensures Opens(FlowPairsTokens(pairs, first), -1)
    decreases pairs
  {
    hide Opens, Comma;
    match pairs
    case NoFlowPairs(comma) =>
      OpensOne(FlowMappingEndToken);
      CommaOpens(first || !comma, [FlowMappingEndToken], -1);
    case FlowKeyOnly(t, rest) =>
      TextOpens(t);
      FlowPairsOpen(rest, false);
      OpensConcat(Tokens(t), 0, FlowPairsTokens(rest, false), -1);
      CommaOpens(first, Tokens(t) + FlowPairsTokens(rest, false), -1);
    case FlowPair(k, v, rest) =>
      PlaceOpens(k);
      FlowPairsOpen(rest, false);
      KeyOpens(k, v, FlowPairsTokens(rest, false), -1);
      CommaOpens(first, [KeyToken] + (PlaceTokens(k) + (ValueTokens(v) + FlowPairsTokens(rest, false))), -1);
  }

  lemma {:induction false} DirectivesOpen(ts: seq<Token>, version: bool, ds: seq<TagDirective>)
    requires YamlStreamParse.DirectivesFit(ts, version, ds)
    ensures Opens(ts, 0)
    decreases |ts|
  {
    hide Opens, Declared;
    OpensNone();
    if ts != [] {
      FirstDirective(ts, version, ds);
      DirectivesOpen(ts[1..], version || ts[0].VersionDirectiveToken?, ds + TagsOf([ts[0]]));
      BehindOpens(ts[0], ts[1..], 0);
      assert ts == [ts[0]] + ts[1..];
    }
  }

  lemma {:induction false} EndsOpen(n: nat)
    ensures Opens(Ends(n), 0)
  {
    hide Opens;
    OpensNone();
    if n > 0 {
      EndsOpen(n - 1);
      BehindOpens(DocumentEndToken, Ends(n - 1), 0);
    }
  }

  /** Everything but the last token, which ends the stream. */
  lemma {:induction false} DocumentsOpen(docs: seq<DocumentText>, first: bool) returns (front: seq<Token>)
    requires DocumentsFit(docs, first)
    ensures DocumentsTokens(docs) == front + [StreamEndToken] && Opens(front, 0)
    decreases |docs|
  {
    hide Opens;
    OpensNone();
    front := [];
    if docs != [] {
      var d := docs[0];
      var rest := DocumentsOpen(docs[1..], false);
      FrontOpens(d);
      PlaceOpens(d.root);
      EndsOpen(d.ends);
      OpensConcat(Front(d), 0, PlaceTokens(d.root), 0);
      OpensConcat(Ends(d.ends), 0, rest, 0);
      OpensConcat(Front(d) + PlaceTokens(d.root), 0, Ends(d.ends) + rest, 0);
      front := Front(d) + PlaceTokens(d.root) + (Ends(d.ends) + rest);
      DocumentSplit(docs);
      LastApart(Front(d) + PlaceTokens(d.root), Ends(d.ends), rest);
    }
  }

  lemma FrontOpens(d: DocumentText)
    requires YamlStreamParse.DirectivesFit(d.directives, false, [])
    ensures Opens(Front(d), 0)
  {
    hide Opens;
    OpensNone();
    DirectivesOpen(d.directives, false, []);
    OpensOne(DocumentStartToken);
    OpensConcat(d.directives, 0, [DocumentStartToken], 0);
  }

  lemma LastApart(a: seq<Token>, b: seq<Token>, c: seq<Token>)
    ensures a + (b + (c + [StreamEndToken])) == a + (b + c) + [StreamEndToken]
  {
  }

  /** The stream ends at its last token, and all collections are closed by then. */
  lemma StreamOpens(docs: seq<DocumentText>)
    requires DocumentsFit(docs, true)
    ensures var ts := StreamTokens(docs);
            && Net(ts) == 0
            && forall i :: 0 <= i < |ts| && ts[i].StreamEndToken? ==> i == |ts| - 1
  {
    hide DocumentsTokens, Net;
    var front := DocumentsOpen(docs, true);
    BehindOpens(StreamStartToken, front, 0);
    var ts := StreamTokens(docs);
    assert ts == [StreamStartToken] + front + [StreamEndToken];
    NetConcat([StreamStartToken] + front, [StreamEndToken]);
    NetOfEnd();
  }

  lemma NetOfEnd()
    ensures Net([StreamEndToken]) == 0
  {
    assert [StreamEndToken][..0] == [];
  }

  // ---------------------------------------------------------------- runs

  /** At the end of a run the last token consumed was STREAM-END. */
  ghost predicate EndsWell(m: Machine) {
    m.error == NoError && m.state.EndState? ==> 0 < m.pos <= |m.tokens| && m.tokens[m.pos - 1].StreamEndToken?
  }

  /** The step that ends the stream. */
  lemma EndStep(m: Machine)
    requires YamlParseSafety.Fits(m) && !m.state.EndState?
    ensures EndsWell(StateMachine(m).m)
  {
    hide StateMachine, Frames, MarkCount;
    StateMachineAdvances(m);
    FramesBegin(m.states);
    if m.states == [] {
      OutsideEndStep(m);
    } else {
      InsideEndStep(m);
    }
  }

  lemma OutsideEndStep(m: Machine)
    requires YamlParseSafety.Fits(m) && !m.state.EndState? && m.states == []
    ensures EndsWell(StateMachine(m).m)
  {
    hide ImplicitDocument, ExplicitDocument, SkipDocumentEnds;
    if m.state.ImplicitDocumentStartState? { DocumentEndStep(m, true); }
    if m.state.DocumentStartState? { DocumentEndStep(m, false); }
  }

  lemma DocumentEndStep(m: Machine, implicit: bool)
    requires YamlParseSafety.Fits(m) && m.states == [] && !m.state.EndState?
    ensures EndsWell(ParseDocumentStart(m, implicit).m)
  {
    hide SkipDocumentEnds, ProcessDirectives, StartsDocument;
  }

  lemma InsideEndStep(m: Machine)
    requires YamlParseSafety.Fits(m) && m.states != [] && Frames(m.states)[0] == InStream
    requires Advances(Stack(m.state, m.states), m, StateMachine(m))
    ensures EndsWell(StateMachine(m).m)
  {
    hide StateMachine, MarkCount, Stack, Read, Advances;
    var o := StateMachine(m);
    AdvancesReads(Stack(m.state, m.states), m, o);
    if o.event.Some? {
      DeepStack(m.state, m.states);
      ReadDeep(Stack(m.state, m.states), o.event.value);
      StackAtEnd(o.m.state, o.m.states);
    }
  }

  lemma AdvancesReads(stack: seq<Frame>, m: Machine, o: Outcome)
    requires Advances(stack, m, o)
    ensures o.event.Some? <==> o.m.error == NoError
    ensures o.event.Some? ==> Read(stack, o.event.value) == Some(Stack(o.m.state, o.m.states))
  {
    hide YamlParseSafety.Fits, Stack, Read;
  }

  lemma ReadDeep(stack: seq<Frame>, e: Event)
    requires |stack| >= 2 && Read(stack, e).Some?
    ensures Read(stack, e).value != [] && Read(stack, e).value[0] == stack[0]
  {
  }

  lemma DeepStack(state: State, states: seq<State>)
    requires states != [] && InsideDocument(states) && Frames(states)[0] == InStream
    requires AwaitsNode(state) || IsFirst(state) || IsContinuation(state)
    ensures |Stack(state, states)| >= 2 && Stack(state, states)[0] == InStream
  {
    assert HasFrame(Last(states)) by {
      if |states| > 1 { assert IsReturn(states[|states| - 1]); }
    }
  }

  /** One more step of a run. */
  lemma NextKeeps(r: Run)
    requires RunFits(r) && r.m.error == NoError && EndsWell(r.m)
    ensures EndsWell(Next(r).m)
    ensures Next(r).m.error == NoError ==>
              && r.m.pos <= |r.m.tokens| && Next(r).m.pos <= |Next(r).m.tokens|
              && Lost(Next(r).m) >= Lost(r.m) + (if LosesBracket(r.m) then 1 else 0)
  {
    hide StateMachine, Lost, Frames, MarkCount, Stack, Read, ReadAll;
    var m := r.m;
    if !(m.ended || m.state.EndState?) {
      EndStep(m);
      StateMachineAdvances(m);
      StateMachineKeeps(m);
      AdvancesMeans(m, StateMachine(m));
      if LosesBracket(m) { BracketStep(m); }
    }
  }

  lemma BracketStep(m: Machine)
    requires LosesBracket(m)
    ensures StateMachine(m) == ParseFlowSequenceEntryMappingKey(m) && Keeps(m, StateMachine(m), 1)
  {
    hide ParseFlowSequenceEntryMappingKey;
    FlowSequenceEntryMappingKeyKeeps(m);
  }

  /** What holds after any number of steps. */
  ghost predicate Counts(tokens: seq<Token>, n: nat) {
    var r := RunFor(tokens, n);
    && r.m.tokens == tokens && RunFits(r)
    && (r.m.error == NoError ==> EndsWell(r.m) && r.m.pos <= |r.m.tokens|)
  }

  lemma {:induction false} EveryRunCounts(tokens: seq<Token>, n: nat)
    ensures Counts(tokens, n)
  {
    hide RunFits, Next, YamlParseSafety.Fits;
    EveryRunFits(tokens, n);
    if n > 0 {
      var r := RunFor(tokens, n - 1);
      EveryRunCounts(tokens, n - 1);
      if r.m.error == NoError { NextKeeps(r); } else { StaysEnded(r); }
    }
  }

  lemma {:induction false} StaysPut(tokens: seq<Token>, k: nat, n: nat)
    requires k <= n
    requires var m := RunFor(tokens, k).m; m.error != NoError || m.state.EndState?
    ensures RunFor(tokens, n) == RunFor(tokens, k)
    decreases n
  {
    hide Next;
    if k < n {
      StaysPut(tokens, k, n - 1);
      StaysEnded(RunFor(tokens, n - 1));
    }
  }

  /** What is lost stays lost. */
  lemma {:induction false} LostGrows(tokens: seq<Token>, k: nat, n: nat)
    requires k <= n && RunFor(tokens, n).m.error == NoError
    ensures Counts(tokens, k) && Counts(tokens, n) && RunFor(tokens, k).m.error == NoError
    ensures Lost(RunFor(tokens, n).m) >= Lost(RunFor(tokens, k).m)
    decreases n
  {
    hide Next, Lost, RunFits, EndsWell;
    EveryRunCounts(tokens, k);
    EveryRunCounts(tokens, n);
    if k < n {
      var r := RunFor(tokens, n - 1);
      EveryRunCounts(tokens, n - 1);
      if r.m.error != NoError { StaysPut(tokens, n - 1, n); }
      NextKeeps(r);
      LostGrows(tokens, k, n - 1);
    }
  }

  /** A run that breaks does not end the stream. */
  lemma BrokenNeverEnds(docs: seq<DocumentText>, k: nat, n: nat)
    requires DocumentsFit(docs, true) && Broken(RunFor(StreamTokens(docs), k).m)
    ensures var m := RunFor(StreamTokens(docs), n).m; !(m.state.EndState? && m.error == NoError)
  {
    hide Next, Lost, RunFits, DocumentsTokens;
    var tokens := StreamTokens(docs);
    var m := RunFor(tokens, n).m;
    if m.state.EndState? && m.error == NoError {
      if n <= k {
        StaysPut(tokens, n, k);
      } else if RunFor(tokens, k).m.error != NoError {
        StaysPut(tokens, k, n);
      } else {
        LostForGood(docs, k, n);
      }
    }
  }

  lemma LostForGood(docs: seq<DocumentText>, k: nat, n: nat)
    requires DocumentsFit(docs, true) && k < n && LosesBracket(RunFor(StreamTokens(docs), k).m)
    requires RunFor(StreamTokens(docs), n).m.error == NoError
    ensures !RunFor(StreamTokens(docs), n).m.state.EndState?
  {
    hide Next, RunFits, DocumentsTokens, Net;
    var tokens := StreamTokens(docs);
    var r, m := RunFor(tokens, k), RunFor(tokens, n).m;
    LostGrows(tokens, k + 1, n);
    LostGrows(tokens, 0, k + 1);
    LostGrows(tokens, k, k + 1);
    NextKeeps(r);
    LostGrows(tokens, 0, k);
    NothingLostYet(tokens);
    if m.state.EndState? { EndLosesNothing(docs, n); }
  }

  /** At the end all tokens are consumed and no mark is left. */
  lemma EndLosesNothing(docs: seq<DocumentText>, n: nat)
    requires DocumentsFit(docs, true)
    requires var m := RunFor(StreamTokens(docs), n).m; m.error == NoError && m.state.EndState?
    ensures var m := RunFor(StreamTokens(docs), n).m; m.pos <= |m.tokens| && Lost(m) == 0
  {
    hide Next, RunFits, DocumentsTokens, Net;
    var tokens := StreamTokens(docs);
    var m := RunFor(tokens, n).m;
    EveryRunCounts(tokens, n);
    CompleteAtTheEnd(tokens, n);
    StreamOpens(docs);
    assert tokens[..m.pos] == tokens;
  }

  lemma NothingLostYet(tokens: seq<Token>)
    ensures RunFor(tokens, 0).m.pos == 0 && Lost(RunFor(tokens, 0).m) == 0
  {
  }

  // ---------------------------------------------------------------- the exact condition

  /** After `n` steps the parser has ended without an error, with these events. */
  predicate ReadsTo(tokens: seq<Token>, n: nat, es: seq<Event>) {
    var r := RunFor(tokens, n);
    r.m.state.EndState? && r.m.error == NoError && r.events == es
  }

  /**
   The parser reads a stream of the grammar to its events exactly if it is readable; otherwise it reports an error.
   */
  lemma StreamIsReadIff(docs: seq<DocumentText>)
    requires DocumentsFit(docs, true)
    ensures (exists n: nat :: ReadsTo(StreamTokens(docs), n, StreamEventsOf(docs))) <==> DocumentsReadable(docs)
    ensures !DocumentsReadable(docs) ==>
              forall n: nat :: n > 9 * |StreamTokens(docs)| ==>
                RunFor(StreamTokens(docs), n).m.error == ScannerError ||
                    RunFor(StreamTokens(docs), n).m.error == ParserError
  {
    hide Next, RunFits, DocumentsTokens, YamlStreamParse.DocumentsEvents, DocumentsReadable, DocumentsFit, Broken;
    var tokens := StreamTokens(docs);
    var f := StreamComes(docs);
    var k: nat :| Meets(Iterate(Run(Begin(tokens), []), k), DocumentsReadable(docs), Run(f, StreamEventsOf(docs)));
    RunForIterates(tokens, k);
    if DocumentsReadable(docs) {
      assert ReadsTo(tokens, k, StreamEventsOf(docs));
    } else {
      forall n: nat ensures !(RunFor(tokens, n).m.state.EndState? && RunFor(tokens, n).m.error == NoError) {
        BrokenNeverEnds(docs, k, n);
      }
      forall n: nat | n > 9 * |tokens|
        ensures RunFor(tokens, n).m.error == ScannerError || RunFor(tokens, n).m.error == ParserError
      {
        EveryRunEnds(tokens, n);
        EventsBeginAStream(tokens, n);
      }
    }
  }

  // ---------------------------------------------------------------- departures from the grammar and the documentation

  const Bare: Props := Props("", None, true)

  /** A stream of one implicit document. */
  function OneText(t: Text): seq<DocumentText> {
    [DocumentText(false, [], Present(t), 0)]
  }

  /** A flow sequence whose last entry is a key without a node. */
  function OneAbsentKey(v: Value, comma: bool): Text {
    FlowSequenceText(Bare, FlowSinglePair(Absent, v, NoFlowItems(comma)))
  }

  lemma OneTextTokens(t: Text)
    ensures StreamTokens(OneText(t)) == [StreamStartToken] + Tokens(t) + [StreamEndToken]
    ensures DocumentsReadable(OneText(t)) == Readable(t)
    ensures DocumentsFit(OneText(t), true) == YamlText.Fits(t, WithDefaults([]), true, false)
  {
    hide Tokens, Readable, YamlText.Fits;
    var docs := OneText(t);
    assert docs[1..] == [] && Ends(0) + [StreamEndToken] == [StreamEndToken];
    assert DocumentsTokens(docs[1..]) == [StreamEndToken];
  }

  /** "[ KEY ]" is a text of the grammar, but its bracket is skipped and the parser ends in an error. */
  lemma AbsentKeyFails(n: nat)
    requires n > 45
    ensures var t := OneAbsentKey(NoValue, false);
            && YamlText.Fits(t, WithDefaults([]), true, false)
            && StreamTokens(OneText(t)) == [StreamStartToken, FlowSequenceStartToken, KeyToken, FlowSequenceEndToken,
                                            StreamEndToken]
            && var m := RunFor(StreamTokens(OneText(t)), n).m;
            m.error == ScannerError || m.error == ParserError
  {
    hide DocumentsReadable, DocumentsFit, StreamTokens, RunFor, WithDefaults;
    var t := OneAbsentKey(NoValue, false);
    OneTextTokens(t);
    assert Tokens(t) == [FlowSequenceStartToken, KeyToken, FlowSequenceEndToken];
    StreamIsReadIff(OneText(t));
  }

  /** "[ KEY VALUE ]" and "[ KEY , ]" are read although their keys have no node. */
  lemma AbsentKeyIsReadThere()
    ensures StreamTokens(OneText(OneAbsentKey(HasValue(Absent), false))) ==
            [StreamStartToken, FlowSequenceStartToken, KeyToken, ValueToken, FlowSequenceEndToken, StreamEndToken]
    ensures exists n: nat :: ReadsTo(StreamTokens(OneText(OneAbsentKey(HasValue(Absent), false))), n,
                                     StreamEventsOf(OneText(OneAbsentKey(HasValue(Absent), false))))
    ensures exists n: nat :: ReadsTo(StreamTokens(OneText(OneAbsentKey(NoValue, true))), n,
                                     StreamEventsOf(OneText(OneAbsentKey(NoValue, true))))
  {
    hide DocumentsReadable, DocumentsFit, StreamTokens, RunFor, WithDefaults, ReadsTo, StreamEventsOf;
    var t, u := OneAbsentKey(HasValue(Absent), false), OneAbsentKey(NoValue, true);
    OneTextTokens(t);
    OneTextTokens(u);
    assert Tokens(t) == [FlowSequenceStartToken, KeyToken, ValueToken, FlowSequenceEndToken];
    StreamIsReadIff(OneText(t));
    StreamIsReadIff(OneText(u));
  }

  /** A block mapping that begins with VALUE is a text of the grammar, and an error for the parser. */
  lemma LoneValueFails(value: string, n: nat)
    requires n > 54
    ensures var t := BlockMappingText(Bare, LoneValue(Present(ScalarText(Bare, value, PlainStyle)), NoBlockPairs));
            && YamlText.Fits(t, WithDefaults([]), true, false)
            && StreamTokens(OneText(t)) == [StreamStartToken, BlockMappingStartToken, ValueToken,
                                            ScalarToken(value, PlainStyle),
                                            BlockEndToken, StreamEndToken]
            && var m := RunFor(StreamTokens(OneText(t)), n).m;
            m.error == ScannerError || m.error == ParserError
  {
    hide DocumentsReadable, DocumentsFit, StreamTokens, RunFor, WithDefaults;
    var scalar := ScalarText(Bare, value, PlainStyle);
    var t := BlockMappingText(Bare, LoneValue(Present(scalar), NoBlockPairs));
    OneTextTokens(t);
    assert Tokens(scalar) == [ScalarToken(value, PlainStyle)] && YamlText.Fits(scalar, WithDefaults([]), true, true);
    assert PairsTokens(t.pairs) == [ValueToken, ScalarToken(value, PlainStyle)] && PairsFit(t.pairs, WithDefaults([]));
    assert Tokens(t) == [BlockMappingStartToken, ValueToken, ScalarToken(value, PlainStyle), BlockEndToken];
    StreamIsReadIff(OneText(t));
  }

  /** The start of a document is not marked implicit, whether it is or not. */
  predicate NotMarked(e: Event) {
    e.DocumentStartEvent? ==> !e.implicit
  }

  lemma {:induction false} NoDocumentIsMarkedImplicit(tokens: seq<Token>, n: nat)
    ensures forall e <- RunFor(tokens, n).events :: NotMarked(e)
  {
    hide StateMachine, RunFits;
    if n > 0 {
      var r := RunFor(tokens, n - 1);
      NoDocumentIsMarkedImplicit(tokens, n - 1);
      EveryRunFits(tokens, n - 1);
      if !(r.m.ended || r.m.error != NoError || r.m.state == EndState) { StepMarksNone(r); }
    }
  }

  lemma StepMarksNone(r: Run)
    requires RunFits(r) && r.m.error == NoError && !r.m.state.EndState?
    ensures StateMachine(r.m).event.Some? ==> NotMarked(StateMachine(r.m).event.value)
  {
    hide StateMachine, Frames, MarkCount, Stack, Read, ReadAll, Advances;
    var m, o := r.m, StateMachine(r.m);
    StateMachineAdvances(m);
    AdvancesReads(Stack(m.state, m.states), m, o);
    if m.states == [] {
      OutsideMarksNone(m);
    } else if o.event.Some? {
      InnermostFrame(m.state, m.states);
      OnlyInStream(Stack(m.state, m.states), o.event.value);
    }
  }

  lemma OutsideMarksNone(m: Machine)
    requires m.states == [] && BetweenNodes(m.state)
    ensures StateMachine(m).event.Some? ==> NotMarked(StateMachine(m).event.value)
  {
    hide ProcessDirectives, SkipDocumentEnds;
  }

  /** Within a document the stream is not the innermost frame. */
  lemma InnermostFrame(state: State, states: seq<State>)
    requires states != [] && InsideDocument(states) && (AwaitsNode(state) || IsFirst(state) || IsContinuation(state))
    ensures Stack(state, states) != [] && Last(Stack(state, states)) != InStream
  {
    assert HasFrame(Last(states)) by {
      if |states| > 1 { assert IsReturn(states[|states| - 1]); }
    }
  }

  lemma OnlyInStream(stack: seq<Frame>, e: Event)
    requires stack != [] && Last(stack) != InStream && Read(stack, e).Some?
    ensures NotMarked(e)
  {
  }
}
