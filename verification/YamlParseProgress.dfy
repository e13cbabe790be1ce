/**
 Every run of the parser ends, and on the way it loses nothing: the aliases, anchors and scalar values of the
 tokens consumed are those of the events produced, in the same order.
 */
module YamlParseProgress {
  import opened Common
  import opened YamlEvents
  import opened YamlParse
  import opened YamlParseSafety

  // ---------------------------------------------------------------- what a token and an event carry

  datatype Content = AliasOf(name: string) | AnchorOf(name: string) | ValueOf(value: string)

  function AnchorContent(anchor: string): seq<Content> {
    if anchor == "" then [] else [AnchorOf(anchor)]
  }

  function ValueContent(value: string): seq<Content> {
    if value == "" then [] else [ValueOf(value)]
  }

  function TokenContent(t: Token): seq<Content> {
    match t
    case AliasToken(name) => [AliasOf(name)]
    case AnchorToken(name) => AnchorContent(name)
    case ScalarToken(value, _) => ValueContent(value)
    case _ => []
  }

  function EventContent(e: Event): seq<Content> {
    match e
    case AliasEvent(name) => [AliasOf(name)]
    case ScalarEvent(anchor, _, value, _, _, _) => AnchorContent(anchor) + ValueContent(value)
    case SequenceStartEvent(anchor, _, _, _) => AnchorContent(anchor)
    case MappingStartEvent(anchor, _, _, _) => AnchorContent(anchor)
    case _ => []
  }

  /** What the tokens from `i` up to `j` carry. */
  function Carried(tokens: seq<Token>, i: nat, j: nat): seq<Content>
    requires i <= j <= |tokens|
    decreases j - i
  {
    if i == j then [] else TokenContent(tokens[i]) + Carried(tokens, i + 1, j)
  }

  function Told(es: seq<Event>): seq<Content> {
    if es == [] then [] else Told(es[..|es| - 1]) + EventContent(es[|es| - 1])
  }

  lemma {:induction false} CarriedConcat(tokens: seq<Token>, i: nat, j: nat, k: nat)
    requires i <= j <= k <= |tokens|
    ensures Carried(tokens, i, k) == Carried(tokens, i, j) + Carried(tokens, j, k)
    decreases j - i
  {
    if i < j { CarriedConcat(tokens, i + 1, j, k); }
  }

  lemma CarriedStep(tokens: seq<Token>, i: nat, j: nat)
    requires i < j <= |tokens|
    ensures Carried(tokens, i, j) == TokenContent(tokens[i]) + Carried(tokens, i + 1, j)
  {
  }

  // ---------------------------------------------------------------- the potential

  /** How many more steps a state may take before it needs a token. */
  function Rank(s: State): (r: nat)
    ensures r <= 5
  {
    match s
    case ImplicitDocumentStartState => 5
    case FlowSequenceEntryMappingKeyState => 4
    case FlowSequenceEntryMappingValueState => 2
    case FlowSequenceEntryMappingEndState => 1
    case DocumentContentState => 1
    case DocumentEndState => 1
    case BlockNodeState => 1
    case BlockNodeOrIndentlessSequenceState => 1
    case FlowNodeState => 1
    case BlockMappingValueState => 1
    case FlowMappingValueState => 1
    case FlowMappingEmptyValueState => 1
    case _ => 0
  }

  function Base(m: Machine): int {
    9 * (|m.tokens| - m.pos) + 3 * |m.states|
  }

  function Potential(m: Machine): int {
    Base(m) + Rank(m.state)
  }

  /** A step that ends in an event stays below `limit` and carries what it consumed. */
  predicate Moves(m: Machine, o: Outcome, limit: int) {
    o.event.Some? ==>
      && m.pos <= o.m.pos <= |m.tokens| && o.m.tokens == m.tokens
      && Potential(o.m) < limit
      && EventContent(o.event.value) == Carried(m.tokens, m.pos, o.m.pos)
  }

  lemma MovesFrom(m: Machine, n: Machine, o: Outcome, limit: int)
    requires Moves(n, o, limit) && n.tokens == m.tokens && m.pos <= n.pos <= |n.tokens|
    requires Carried(m.tokens, m.pos, n.pos) == []
    ensures Moves(m, o, limit)
  {
    if o.event.Some? {
      CarriedConcat(m.tokens, m.pos, n.pos, o.m.pos);
      assert [] + Carried(m.tokens, n.pos, o.m.pos) == Carried(m.tokens, n.pos, o.m.pos);
    }
  }

  lemma CarriedOne(tokens: seq<Token>, i: nat)
    requires i < |tokens|
    ensures Carried(tokens, i, i + 1) == TokenContent(tokens[i])
  {
  }

  // ---------------------------------------------------------------- nodes

  lemma PropertiesCarried(m: Machine)
    requires m.pos < |m.tokens|
    ensures var p := ReadProperties(m);
            && m.pos <= p.m.pos <= |m.tokens| && p.m.states == m.states
            && Carried(m.tokens, m.pos, p.m.pos) == AnchorContent(p.anchor)
  {
    hide Carried;
    var p := ReadProperties(m);
    CarriedNone(m.tokens, m.pos);
    if p.m.pos >= m.pos + 1 { CarriedOne(m.tokens, m.pos); }
    if p.m.pos == m.pos + 2 {
      CarriedOne(m.tokens, m.pos + 1);
      CarriedConcat(m.tokens, m.pos, m.pos + 1, m.pos + 2);
    }
  }

  /** With the properties consumed there is a token to spare. */
  predicate ContentFits(m: Machine, o: Outcome, anchor: string, spent: bool) {
    o.event.Some? ==>
      && m.pos <= o.m.pos <= |m.tokens| && o.m.tokens == m.tokens
      && Potential(o.m) < Base(m) + 1 + (if spent then 9 else 0)
      && EventContent(o.event.value) == AnchorContent(anchor) + Carried(m.tokens, m.pos, o.m.pos)
  }

  lemma ScalarMoves(m: Machine, anchor: string, tag: string, spent: bool)
    requires m.pos < |m.tokens| && m.tokens[m.pos].ScalarToken?
    ensures ContentFits(m, Emit(Skip(PopState(m)), ScalarOf(m.tokens[m.pos], anchor, tag)), anchor, spent)
  {
    hide Rank;
    CarriedOne(m.tokens, m.pos);
  }

  lemma BareMoves(m: Machine, anchor: string, e: Event)
    requires m.pos < |m.tokens| && EventContent(e) == AnchorContent(anchor)
    ensures ContentFits(m, Emit(PopState(m), e), anchor, true)
  {
    hide Rank;
  }

  lemma OpeningMoves(m: Machine, anchor: string, s: State, e: Event, spent: bool)
    requires m.pos < |m.tokens| && EventContent(e) == AnchorContent(anchor) && Rank(s) == 0
    ensures ContentFits(m, Emit(m.(state := s), e), anchor, spent)
  {
  }

  lemma ContentMoves(m: Machine, anchor: string, tag: string, block: bool, indentless: bool, spent: bool)
    requires m.pos < |m.tokens| && (anchor != "" || tag != "" ==> spent)
    ensures ContentFits(m, ParseContent(m, m.tokens[m.pos], anchor, tag, block, indentless), anchor, spent)
  {
    hide ContentFits;
    var t := m.tokens[m.pos];
    var seqStyle := if t.FlowSequenceStartToken? then FlowStyle else BlockStyle;
    var mapStyle := if t.FlowMappingStartToken? then FlowStyle else BlockStyle;
    var seqEvent := SequenceStartEvent(anchor, tag, tag == "", seqStyle);
    var mapEvent := MappingStartEvent(anchor, tag, tag == "", mapStyle);
    if indentless && t.BlockEntryToken? {
      OpeningMoves(m, anchor, IndentlessSequenceEntryState, seqEvent, spent);
    } else if t.ScalarToken? {
      ScalarMoves(m, anchor, tag, spent);
    } else if t.FlowSequenceStartToken? {
      OpeningMoves(m, anchor, FlowSequenceFirstEntryState, seqEvent, spent);
    } else if t.FlowMappingStartToken? {
      OpeningMoves(m, anchor, FlowMappingFirstKeyState, mapEvent, spent);
    } else if block && t.BlockSequenceStartToken? {
      OpeningMoves(m, anchor, BlockSequenceFirstEntryState, seqEvent, spent);
    } else if block && t.BlockMappingStartToken? {
      OpeningMoves(m, anchor, BlockMappingFirstKeyState, mapEvent, spent);
    } else if anchor != "" || tag != "" {
      BareMoves(m, anchor, ScalarEvent(anchor, tag, "", tag == "", false, PlainStyle));
    } else {
      assert ContentFits(m, Fail(m), anchor, spent) by { FailMoves(m, anchor, spent); }
    }
  }

  lemma FailMoves(m: Machine, anchor: string, spent: bool)
    ensures ContentFits(m, Fail(m), anchor, spent)
  {
  }

  lemma NodeMoves(m: Machine, block: bool, indentless: bool)
    requires m.pos <= |m.tokens|
    ensures Moves(m, ParseNode(m, block, indentless), Base(m) + 1)
  {
    if m.pos < |m.tokens| {
      if m.tokens[m.pos].AliasToken? {
        CarriedOne(m.tokens, m.pos);
      } else {
        PropertiesMove(m, block, indentless);
      }
    }
  }

  lemma PropertiesMove(m: Machine, block: bool, indentless: bool)
    requires m.pos < |m.tokens| && !m.tokens[m.pos].AliasToken?
    ensures Moves(m, ParseNode(m, block, indentless), Base(m) + 1)
  {
    hide ReadProperties, Resolve, ParseContent, Carried;
    var p := ReadProperties(m);
    PropertiesCarried(m);
    NoPropertiesNoTag(m);
    if p.m.pos < |m.tokens| && Resolve(p.m.directives, p.tag).Some? {
      var o := ParseNode(m, block, indentless);
      ContentMoves(p.m, p.anchor, Resolve(p.m.directives, p.tag).value, block, indentless, p.m.pos > m.pos);
      if o.event.Some? { CarriedConcat(m.tokens, m.pos, p.m.pos, o.m.pos); }
    }
  }

  lemma NoPropertiesNoTag(m: Machine)
    ensures var p := ReadProperties(m);
            p.m.pos == m.pos ==> p.anchor == "" && Resolve(p.m.directives, p.tag) == Some("")
  {
  }

  // ---------------------------------------------------------------- collections

  predicate Silent(t: Token) {
    TokenContent(t) == []
  }

  lemma NodeOrMoves(m: Machine, absent: bool, next: State, block: bool, indentless: bool)
    requires m.pos <= |m.tokens| && Rank(next) <= 3
    ensures Moves(m, NodeOr(m, absent, next, block, indentless), Base(m) + 4)
  {
    hide ParseNode, Carried;
    CarriedNone(m.tokens, m.pos);
    NodeMoves(Push(m, next), block, indentless);
  }

  lemma CarriedNone(tokens: seq<Token>, i: nat)
    requires i <= |tokens|
    ensures Carried(tokens, i, i) == []
  {
  }

  /** A silent token is skipped on the way to a step. */
  lemma SkipMoves(m: Machine, o: Outcome, limit: int)
    requires m.pos < |m.tokens| && Silent(m.tokens[m.pos]) && Moves(Skip(m), o, limit)
    ensures Moves(m, o, limit)
  {
    hide Moves;
    CarriedOne(m.tokens, m.pos);
    MovesFrom(m, Skip(m), o, limit);
  }

  lemma NodeBehindMoves(m: Machine, ends: Token -> bool, next: State, block: bool, indentless: bool)
    requires m.pos < |m.tokens| && Silent(m.tokens[m.pos]) && Rank(next) <= 3
    ensures Moves(m, NodeBehind(m, ends, next, block, indentless), Base(m) - 5)
  {
    hide NodeOr, Carried, Silent;
    var n := Skip(m);
    if n.pos < |n.tokens| {
      NodeOrMoves(n, ends(n.tokens[n.pos]), next, block, indentless);
      SkipMoves(m, NodeBehind(m, ends, next, block, indentless), Base(m) - 5);
    }
  }

  lemma CloseMoves(m: Machine, e: Event)
    requires m.pos < |m.tokens| && Silent(m.tokens[m.pos]) && EventContent(e) == []
    ensures Moves(m, Close(m, e), Base(m) - 5)
  {
    hide Rank;
    CarriedOne(m.tokens, m.pos);
  }

  /** An event that consumes nothing and only changes the state. */
  lemma TurnMoves(m: Machine, s: State, e: Event, limit: int)
    requires m.pos <= |m.tokens| && EventContent(e) == [] && Base(m) + Rank(s) < limit
    ensures Moves(m, Emit(m.(state := s), e), limit)
  {
  }

  lemma TurnAndSkipMoves(m: Machine, s: State, e: Event)
    requires m.pos < |m.tokens| && EventContent(e) == [] && Silent(m.tokens[m.pos])
    ensures Moves(m, Emit(Skip(m.(state := s)), e), Base(m))
    ensures Moves(m, Emit(Skip(m).(state := s), e), Base(m))
  {
    CarriedOne(m.tokens, m.pos);
  }

  lemma LimitMoves(m: Machine, o: Outcome, low: int, high: int)
    requires Moves(m, o, low) && low <= high
    ensures Moves(m, o, high)
  {
  }

  lemma EnterMoves(m: Machine, o: Outcome, limit: int)
    requires Fits(m) && limit <= Potential(m) && Moves(Entered(m), o, limit)
    ensures Moves(m, o, Potential(m))
  {
    hide Carried, Stack, Frames, MarkCount, Moves;
    var n := Entered(m);
    LimitMoves(n, o, limit, Potential(m));
    if IsFirst(m.state) {
      CarriedOne(m.tokens, m.pos);
    } else {
      CarriedNone(m.tokens, m.pos);
    }
    MovesFrom(m, n, o, Potential(m));
  }

  lemma StuckMoves(m: Machine, o: Outcome, limit: int)
    requires o.event.None?
    ensures Moves(m, o, limit)
  {
  }

  lemma BlockSequenceMoves(m: Machine, first: bool)
    requires Fits(m) && m.state == if first then BlockSequenceFirstEntryState else BlockSequenceEntryState
    ensures Moves(m, ParseBlockSequenceEntry(m, first), Potential(m))
  {
    hide Fits, Moves, NodeBehind, Close;
    var n, o := Entered(m), ParseBlockSequenceEntry(m, first);
    if n.pos < |n.tokens| && (n.tokens[n.pos].BlockEntryToken? || n.tokens[n.pos].BlockEndToken?) {
      NodeBehindMoves(n, EndsBlockItem, BlockSequenceEntryState, true, false);
      CloseMoves(n, SequenceEndEvent);
    } else {
      StuckMoves(n, o, Base(n) - 5);
    }
    EnterMoves(m, o, Base(n) - 5);
  }

  lemma BlockMappingKeyMoves(m: Machine, first: bool)
    requires Fits(m) && m.state == if first then BlockMappingFirstKeyState else BlockMappingKeyState
    ensures Moves(m, ParseBlockMappingKey(m, first), Potential(m))
  {
    hide Fits, Moves, NodeBehind, Close;
    var n, o := Entered(m), ParseBlockMappingKey(m, first);
    if n.pos < |n.tokens| && (n.tokens[n.pos].KeyToken? || n.tokens[n.pos].BlockEndToken?) {
      NodeBehindMoves(n, EndsBlockPair, BlockMappingValueState, true, true);
      CloseMoves(n, MappingEndEvent);
    } else {
      StuckMoves(n, o, Base(n) - 5);
    }
    EnterMoves(m, o, Base(n) - 5);
  }

  lemma IndentlessSequenceMoves(m: Machine)
    requires Fits(m) && m.state == IndentlessSequenceEntryState
    ensures Moves(m, ParseIndentlessSequenceEntry(m), Potential(m))
  {
    hide Moves, NodeBehind;
    if m.pos < |m.tokens| && m.tokens[m.pos].BlockEntryToken? {
      NodeBehindMoves(m, EndsIndentlessItem, IndentlessSequenceEntryState, true, false);
      LimitMoves(m, ParseIndentlessSequenceEntry(m), Base(m) - 5, Potential(m));
    } else if m.pos < |m.tokens| {
      IndentlessEndMoves(m);
    } else {
      StuckMoves(m, ParseIndentlessSequenceEntry(m), Potential(m));
    }
  }

  /** The indentless sequence ends without a token of its own: the state returned to has a low rank. */
  lemma IndentlessEndMoves(m: Machine)
    requires Fits(m) && m.state == IndentlessSequenceEntryState && m.pos < |m.tokens|
    ensures Moves(m, Emit(PopState(m), SequenceEndEvent), Potential(m))
  {
    hide Frames, MarkCount;
    CarriedNone(m.tokens, m.pos);
    PoppedRank(m);
  }

  lemma PoppedRank(m: Machine)
    requires InsideDocument(m.states)
    ensures Rank(Last(m.states)) <= 2
  {
  }

  lemma BlockMappingValueMoves(m: Machine)
    requires Fits(m) && m.state == BlockMappingValueState
    ensures Moves(m, ParseBlockMappingValue(m), Potential(m))
  {
    hide Moves, NodeBehind, Fits;
    assert m.pos <= |m.tokens| by { Inside(m); }
    if m.pos < |m.tokens| && m.tokens[m.pos].ValueToken? {
      NodeBehindMoves(m, EndsBlockPair, BlockMappingKeyState, true, true);
      LimitMoves(m, ParseBlockMappingValue(m), Base(m) - 5, Potential(m));
    } else if m.pos < |m.tokens| {
      TurnMoves(m, BlockMappingKeyState, Blank, Potential(m));
    } else {
      StuckMoves(m, ParseBlockMappingValue(m), Potential(m));
    }
  }

  lemma Inside(m: Machine)
    requires Fits(m)
    ensures m.pos <= |m.tokens|
  {
  }

  lemma FlowSequenceItemMoves(m: Machine)
    requires m.pos < |m.tokens|
    ensures Moves(m, FlowSequenceItem(m, m.tokens[m.pos]), Base(m) + 4)
  {
    hide Moves, ParseNode, Close, Skip;
    var t := m.tokens[m.pos];
    var o := FlowSequenceItem(m, t);
    if t.KeyToken? {
      TurnAndSkipMoves(m, FlowSequenceEntryMappingKeyState, MappingStartEvent("", "", true, FlowStyle));
      LimitMoves(m, o, Base(m), Base(m) + 4);
    } else if !t.FlowSequenceEndToken? {
      NodeOrMoves(m, false, FlowSequenceEntryState, false, false);
    } else {
      CloseMoves(m, SequenceEndEvent);
      LimitMoves(m, o, Base(m) - 5, Base(m) + 4);
    }
  }

  lemma FlowMappingItemMoves(m: Machine)
    requires m.pos < |m.tokens|
    ensures Moves(m, FlowMappingItem(m, m.tokens[m.pos]), Base(m) + 4)
  {
    hide Moves, ParseNode, Close, NodeBehind;
    var t := m.tokens[m.pos];
    var o := FlowMappingItem(m, t);
    if t.KeyToken? {
      NodeBehindMoves(m, EndsFlowKey, FlowMappingValueState, false, false);
      LimitMoves(m, o, Base(m) - 5, Base(m) + 4);
    } else if !t.FlowMappingEndToken? {
      NodeOrMoves(m, false, FlowMappingEmptyValueState, false, false);
    } else {
      CloseMoves(m, MappingEndEvent);
      LimitMoves(m, o, Base(m) - 5, Base(m) + 4);
    }
  }

  /** The first item follows the opening token, any other one a comma: there is always a token to spend. */
  lemma FirstItemMoves(m: Machine, o: Outcome)
    requires Fits(m) && IsFirst(m.state) && Moves(Entered(m), o, Base(Entered(m)) + 4)
    ensures Moves(m, o, Potential(m))
  {
    hide Moves, Stack, Frames, MarkCount;
    EnterMoves(m, o, Base(Entered(m)) + 4);
  }

  lemma NextItemMoves(m: Machine, o: Outcome)
    requires m.pos < |m.tokens| && m.tokens[m.pos].FlowEntryToken? && Moves(Skip(m), o, Base(Skip(m)) + 4)
    ensures Moves(m, o, Potential(m))
  {
    hide Moves;
    LimitMoves(Skip(m), o, Base(Skip(m)) + 4, Potential(m));
    SkipMoves(m, o, Potential(m));
  }

  lemma FlowSequenceMoves(m: Machine, first: bool)
    requires Fits(m) && m.state == if first then FlowSequenceFirstEntryState else FlowSequenceEntryState
    ensures Moves(m, ParseFlowSequenceEntry(m, first), Potential(m))
  {
    hide Fits, Moves, FlowSequenceItem, Close;
    var n, o := Entered(m), ParseFlowSequenceEntry(m, first);
    if n.pos < |n.tokens| && n.tokens[n.pos].FlowSequenceEndToken? {
      CloseMoves(n, SequenceEndEvent);
      EnterMoves(m, o, Base(n) - 5);
    } else if n.pos < |n.tokens| && first {
      FlowSequenceItemMoves(n);
      FirstItemMoves(m, o);
    } else if n.pos + 1 < |n.tokens| && n.tokens[n.pos].FlowEntryToken? {
      FlowSequenceItemMoves(Skip(m));
      NextItemMoves(m, o);
    } else {
      StuckMoves(m, o, Potential(m));
    }
  }

  lemma FlowMappingKeyMoves(m: Machine, first: bool)
    requires Fits(m) && m.state == if first then FlowMappingFirstKeyState else FlowMappingKeyState
    ensures Moves(m, ParseFlowMappingKey(m, first), Potential(m))
  {
    hide Fits, Moves, FlowMappingItem, Close;
    var n, o := Entered(m), ParseFlowMappingKey(m, first);
    if n.pos < |n.tokens| && n.tokens[n.pos].FlowMappingEndToken? {
      CloseMoves(n, MappingEndEvent);
      EnterMoves(m, o, Base(n) - 5);
    } else if n.pos < |n.tokens| && first {
      FlowMappingItemMoves(n);
      FirstItemMoves(m, o);
    } else if n.pos + 1 < |n.tokens| && n.tokens[n.pos].FlowEntryToken? {
      FlowMappingItemMoves(Skip(m));
      NextItemMoves(m, o);
    } else {
      StuckMoves(m, o, Potential(m));
    }
  }

  lemma FlowSequenceEntryMappingKeyMoves(m: Machine)
    requires Fits(m) && m.state == FlowSequenceEntryMappingKeyState
    ensures Moves(m, ParseFlowSequenceEntryMappingKey(m), Potential(m))
  {
    hide Moves, ParseNode, Fits, Skip;
    var next, o := FlowSequenceEntryMappingValueState, ParseFlowSequenceEntryMappingKey(m);
    if m.pos >= |m.tokens| {
      StuckMoves(m, o, Potential(m));
    } else if EndsPairInSequence(m.tokens[m.pos]) || m.tokens[m.pos].ValueToken? {
      TurnAndSkipMoves(m, next, Blank);
      LimitMoves(m, o, Base(m), Potential(m));
    } else {
      NodeOrMoves(m, false, next, false, false);
    }
  }

  lemma FlowSequenceEntryMappingValueMoves(m: Machine)
    requires Fits(m) && m.state == FlowSequenceEntryMappingValueState
    ensures Moves(m, ParseFlowSequenceEntryMappingValue(m), Potential(m))
  {
    hide Moves, NodeBehind, Fits;
    var next, o := FlowSequenceEntryMappingEndState, ParseFlowSequenceEntryMappingValue(m);
    if m.pos >= |m.tokens| {
      StuckMoves(m, o, Potential(m));
    } else if m.tokens[m.pos].ValueToken? {
      NodeBehindMoves(m, EndsPairInSequence, next, false, false);
      LimitMoves(m, o, Base(m) - 5, Potential(m));
    } else {
      TurnMoves(m, next, Blank, Potential(m));
    }
  }

  lemma FlowSequenceEntryMappingEndMoves(m: Machine)
    requires Fits(m) && m.state == FlowSequenceEntryMappingEndState
    ensures Moves(m, ParseFlowSequenceEntryMappingEnd(m), Potential(m))
  {
    hide Fits;
    Inside(m);
    TurnMoves(m, FlowSequenceEntryState, MappingEndEvent, Potential(m));
  }

  lemma FlowMappingValueMoves(m: Machine, empty: bool)
    requires Fits(m) && m.state == if empty then FlowMappingEmptyValueState else FlowMappingValueState
    ensures Moves(m, ParseFlowMappingValue(m, empty), Potential(m))
  {
    hide Moves, NodeBehind, Fits;
    var next, o := FlowMappingKeyState, ParseFlowMappingValue(m, empty);
    if m.pos >= |m.tokens| {
      StuckMoves(m, o, Potential(m));
    } else if !empty && m.tokens[m.pos].ValueToken? {
      NodeBehindMoves(m, EndsFlowValue, next, false, false);
      LimitMoves(m, o, Base(m) - 5, Potential(m));
    } else {
      TurnMoves(m, next, Blank, Potential(m));
    }
  }

  // ---------------------------------------------------------------- documents

  lemma {:induction false} SkipDocumentEndsCarried(m: Machine)
    requires m.pos <= |m.tokens|
    ensures var r := SkipDocumentEnds(m);
            m.pos <= r.pos <= |m.tokens| && Carried(m.tokens, m.pos, r.pos) == []
    decreases |m.tokens| - m.pos
  {
    if Peek(m) == Some(DocumentEndToken) {
      SkipDocumentEndsCarried(Skip(m));
    }
  }

  lemma {:induction false} DirectivesCarried(m: Machine, version: bool, tags: seq<TagDirective>)
    requires m.pos <= |m.tokens|
    ensures var d := ProcessDirectives(m, version, tags);
            m.pos <= d.m.pos <= |m.tokens| && Carried(m.tokens, m.pos, d.m.pos) == []
    decreases |m.tokens| - m.pos
  {
    hide WithDefaults, Declared, Carried;
    var d := ProcessDirectives(m, version, tags);
    CarriedNone(m.tokens, m.pos);
    if m.pos < |m.tokens| && d.m.pos > m.pos {
      if m.tokens[m.pos].VersionDirectiveToken? {
        DirectivesCarried(Skip(m), true, tags);
      } else {
        var t := m.tokens[m.pos].directive;
        DirectivesCarried(Skip(m.(directives := m.directives + [t])), version, tags + [t]);
      }
      CarriedStep(m.tokens, m.pos, d.m.pos);
    }
  }

  lemma DocumentMoves(m: Machine, implicit: bool)
    requires m.pos < |m.tokens|
    ensures Moves(m, ImplicitDocument(m), Base(m) + 5)
    ensures Moves(m, ExplicitDocument(m), Base(m))
  {
    hide ProcessDirectives, Carried;
    var d := ProcessDirectives(m, false, []);
    DirectivesCarried(m, false, []);
    if d.m.pos < |m.tokens| && d.m.tokens[d.m.pos].DocumentStartToken? {
      CarriedOne(m.tokens, d.m.pos);
      CarriedConcat(m.tokens, m.pos, d.m.pos, d.m.pos + 1);
    }
  }

  lemma DocumentStartMoves(m: Machine, implicit: bool)
    requires Fits(m) && m.state == if implicit then ImplicitDocumentStartState else DocumentStartState
    ensures Moves(m, ParseDocumentStart(m, implicit), Potential(m))
  {
    hide Moves, ImplicitDocument, ExplicitDocument, SkipDocumentEnds, Fits, Skip, Carried, StartsDocument;
    Inside(m);
    SkipDocumentEndsCarried(m);
    var n, o := if implicit then m else SkipDocumentEnds(m), ParseDocumentStart(m, implicit);
    CarriedNone(m.tokens, m.pos);
    if n.pos < |n.tokens| {
      DocumentMoves(n, implicit);
      if n.tokens[n.pos].StreamEndToken? {
        TurnAndSkipMoves(n, EndState, StreamEndEvent);
      }
      LimitMoves(n, o, if implicit && o == ImplicitDocument(n) then Base(n) + 5 else Base(n), Potential(m));
    } else {
      StuckMoves(n, o, Potential(m));
    }
    MovesFrom(m, n, o, Potential(m));
  }

  lemma DocumentContentMoves(m: Machine)
    requires Fits(m) && m.state.DocumentContentState?
    ensures Moves(m, ParseDocumentContent(m), Potential(m))
  {
    hide ParseNode, Frames, MarkCount;
    NodeMoves(m, true, false);
    CarriedNone(m.tokens, m.pos);
    PoppedRank(m);
  }

  lemma DocumentEndMoves(m: Machine)
    requires Fits(m) && m.state.DocumentEndState?
    ensures Moves(m, ParseDocumentEnd(m), Potential(m))
  {
    CarriedNone(m.tokens, m.pos);
    if m.pos < |m.tokens| { CarriedOne(m.tokens, m.pos); }
  }

  lemma StreamStartMoves(m: Machine)
    requires m.state.StreamStartState?
    ensures Moves(m, ParseStreamStart(m), Potential(m))
  {
    if m.pos < |m.tokens| { CarriedOne(m.tokens, m.pos); }
  }

  // ---------------------------------------------------------------- every step, every run

  lemma BlockStepMoves(m: Machine)
    requires Fits(m) && (IsContinuation(m.state) || IsFirst(m.state)) && !InFlow(m.state)
    ensures Moves(m, StateMachine(m), Potential(m))
  {
    hide Fits, Moves, ParseBlockSequenceEntry, ParseIndentlessSequenceEntry, ParseBlockMappingKey,
      ParseBlockMappingValue;
    match m.state
    case BlockSequenceFirstEntryState => BlockSequenceMoves(m, true);
    case BlockSequenceEntryState => BlockSequenceMoves(m, false);
    case IndentlessSequenceEntryState => IndentlessSequenceMoves(m);
    case BlockMappingFirstKeyState => BlockMappingKeyMoves(m, true);
    case BlockMappingKeyState => BlockMappingKeyMoves(m, false);
    case BlockMappingValueState => BlockMappingValueMoves(m);
  }

  lemma FlowStepMoves(m: Machine)
    requires Fits(m) && InFlow(m.state)
    ensures Moves(m, StateMachine(m), Potential(m))
  {
    hide Fits, Moves, ParseFlowSequenceEntry, ParseFlowSequenceEntryMappingKey, ParseFlowSequenceEntryMappingValue,
      ParseFlowSequenceEntryMappingEnd, ParseFlowMappingKey, ParseFlowMappingValue;
    match m.state
    case FlowSequenceFirstEntryState => FlowSequenceMoves(m, true);
    case FlowSequenceEntryState => FlowSequenceMoves(m, false);
    case FlowSequenceEntryMappingKeyState => FlowSequenceEntryMappingKeyMoves(m);
    case FlowSequenceEntryMappingValueState => FlowSequenceEntryMappingValueMoves(m);
    case FlowSequenceEntryMappingEndState => FlowSequenceEntryMappingEndMoves(m);
    case FlowMappingFirstKeyState => FlowMappingKeyMoves(m, true);
    case FlowMappingKeyState => FlowMappingKeyMoves(m, false);
    case FlowMappingValueState => FlowMappingValueMoves(m, false);
    case FlowMappingEmptyValueState => FlowMappingValueMoves(m, true);
  }

  lemma OutsideMoves(m: Machine)
    requires Fits(m) && !m.state.EndState? && !IsContinuation(m.state) && !IsFirst(m.state)
    ensures Moves(m, StateMachine(m), Potential(m))
  {
    hide Fits, Moves, ParseStreamStart, ParseDocumentStart, ParseDocumentContent, ParseDocumentEnd, ParseNode;
    Inside(m);
    match m.state
    case StreamStartState =>
      StreamStartMoves(m);
    case ImplicitDocumentStartState => DocumentStartMoves(m, true);
    case DocumentStartState => DocumentStartMoves(m, false);
    case DocumentContentState => DocumentContentMoves(m);
    case DocumentEndState => DocumentEndMoves(m);
    case BlockNodeState => NodeMoves(m, true, false);
    case BlockNodeOrIndentlessSequenceState => NodeMoves(m, true, true);
    case FlowNodeState => NodeMoves(m, false, false);
  }

  lemma StateMachineMoves(m: Machine)
    requires Fits(m) && !m.state.EndState?
    ensures Moves(m, StateMachine(m), Potential(m))
  {
    hide Fits, Moves, StateMachine;
    if InFlow(m.state) { FlowStepMoves(m); }
    else if IsContinuation(m.state) || IsFirst(m.state) { BlockStepMoves(m); }
    else { OutsideMoves(m); }
  }

  /** A run at work: everything consumed has been told. */
  ghost predicate Faithful(r: Run) {
    && RunFits(r)
    && (r.m.error == NoError ==>
          r.m.pos <= |r.m.tokens| && Told(r.events) == Carried(r.m.tokens, 0, r.m.pos))
  }

  lemma NextMoves(r: Run)
    requires Faithful(r)
    ensures Faithful(Next(r)) && Next(r).m.tokens == r.m.tokens
    ensures r.m.error == NoError == Next(r).m.error && !r.m.state.EndState? ==> Potential(Next(r).m) < Potential(r.m)
  {
    hide StateMachine, Stack, Carried, Advances, Frames, MarkCount, Read, ReadAll;
    var s := Next(r);
    NextFits(r);
    if r.m.error == NoError && !r.m.state.EndState? {
      var o := StateMachine(r.m);
      StateMachineMoves(r.m);
      if o.event.Some? {
        CarriedConcat(r.m.tokens, 0, r.m.pos, o.m.pos);
        assert s.events[..|s.events| - 1] == r.events;
      } else {
        StateMachineAdvances(r.m);
        AdvancesMeans(r.m, o);
      }
    }
  }

  lemma AdvancesMeans(m: Machine, o: Outcome)
    requires Advances(Stack(m.state, m.states), m, o)
    ensures o.m.tokens == m.tokens && (o.event.Some? <==> o.m.error == NoError)
  {
  }

  lemma {:induction false} EveryRunIsFaithful(tokens: seq<Token>, n: nat)
    ensures Faithful(RunFor(tokens, n)) && RunFor(tokens, n).m.tokens == tokens
    ensures var m := RunFor(tokens, n).m;
            m.error == NoError && !m.state.EndState? ==> Potential(m) <= 9 * |tokens| - n
  {
    hide Faithful, Next, Potential;
    if n == 0 {
      BeginMoves(tokens);
    } else {
      EveryRunIsFaithful(tokens, n - 1);
      NextMoves(RunFor(tokens, n - 1));
      StaysEnded(RunFor(tokens, n - 1));
    }
  }

  lemma BeginMoves(tokens: seq<Token>)
    ensures Faithful(Run(Begin(tokens), [])) && Potential(Begin(tokens)) == 9 * |tokens|
  {
    BeginFits(tokens);
  }

  lemma StaysEnded(r: Run)
    ensures r.m.error != NoError || r.m.state.EndState? ==> Next(r) == r
  {
  }

  lemma PotentialIsNatural(m: Machine)
    requires m.pos <= |m.tokens|
    ensures Potential(m) >= 0
  {
  }

  /** Whatever the tokens: after at most 9 steps a token, the stream has ended or an error has been reported. */
  lemma EveryRunEnds(tokens: seq<Token>, n: nat)
    requires n > 9 * |tokens|
    ensures var m := RunFor(tokens, n).m; m.state.EndState? || m.error == ScannerError || m.error == ParserError
  {
    EveryRunIsFaithful(tokens, n);
    var m := RunFor(tokens, n).m;
    if m.error == NoError { PotentialIsNatural(m); }
  }

  /** The aliases, anchors and values told are those of the tokens consumed, in the same order. */
  lemma NothingLost(tokens: seq<Token>, n: nat)
    requires RunFor(tokens, n).m.error == NoError
    ensures var r := RunFor(tokens, n);
            r.m.pos <= |tokens| && Told(r.events) == Carried(tokens, 0, r.m.pos)
  {
    EveryRunIsFaithful(tokens, n);
  }
}
