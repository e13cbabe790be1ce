/**
 Every run of the parser: the events it produces begin a stream, its stacks are never popped when empty, and
 when the stream end is reached the stream is complete and the stacks are empty.
 */
module YamlParseSafety {
  import opened Common
  import opened YamlEvents
  import opened YamlParse

  // ---------------------------------------------------------------- what the states stack stands for

  predicate AwaitsNode(s: State) {
    s.DocumentContentState? || s.BlockNodeState? || s.BlockNodeOrIndentlessSequenceState? || s.FlowNodeState?
  }

  predicate IsFirst(s: State) {
    || s.BlockSequenceFirstEntryState? || s.BlockMappingFirstKeyState?
    || s.FlowSequenceFirstEntryState? || s.FlowMappingFirstKeyState?
  }

  /** States inside a collection whose opening token has been marked. */
  predicate IsMarked(s: State) {
    || s.BlockSequenceEntryState? || s.BlockMappingKeyState? || s.BlockMappingValueState?
    || s.FlowSequenceEntryState? || s.FlowSequenceEntryMappingKeyState?
    || s.FlowSequenceEntryMappingValueState? || s.FlowSequenceEntryMappingEndState?
    || s.FlowMappingKeyState? || s.FlowMappingValueState? || s.FlowMappingEmptyValueState?
  }

  predicate IsContinuation(s: State) {
    IsMarked(s) || s.IndentlessSequenceEntryState?
  }

  /** The states that are pushed to be returned to. */
  predicate IsReturn(s: State) {
    IsContinuation(s) && !s.FlowSequenceEntryMappingKeyState?
  }

  /** Inside a mapping of one pair in a flow sequence, which has no state of its own to return to. */
  predicate InPair(s: State) {
    || s.FlowSequenceEntryMappingKeyState? || s.FlowSequenceEntryMappingValueState?
    || s.FlowSequenceEntryMappingEndState?
  }

  predicate HasFrame(s: State) {
    s.DocumentEndState? || IsFirst(s) || IsContinuation(s)
  }

  function Innermost(s: State): Frame {
    match s
    case DocumentEndState => InDocument(true)
    case FlowSequenceEntryMappingKeyState => AtKey
    case FlowSequenceEntryMappingValueState => AtValue
    case FlowSequenceEntryMappingEndState => AtKey
    case BlockMappingFirstKeyState => AtKey
    case BlockMappingKeyState => AtKey
    case BlockMappingValueState => AtValue
    case FlowMappingFirstKeyState => AtKey
    case FlowMappingKeyState => AtKey
    case FlowMappingValueState => AtValue
    case FlowMappingEmptyValueState => AtValue
    case _ => InSequence
  }

  predicate InFlow(s: State) {
    || s.FlowSequenceFirstEntryState? || s.FlowSequenceEntryState? || InPair(s)
    || s.FlowMappingFirstKeyState? || s.FlowMappingKeyState? || s.FlowMappingValueState?
    || s.FlowMappingEmptyValueState?
  }

  /** The frames that a state keeps open. */
  function Denotes(s: State): (fs: seq<Frame>)
    ensures HasFrame(s) <==> fs != []
    ensures HasFrame(s) ==> Last(fs) == Innermost(s)
  {
    if !HasFrame(s) then []
    else if InPair(s) then [InSequence, Innermost(s)]
    else [Innermost(s)]
  }

  function Frames(states: seq<State>): (fs: seq<Frame>)
    ensures fs != []
  {
    if states == [] then [InStream] else Frames(Init(states)) + Denotes(Last(states))
  }

  function Unfill(fs: seq<Frame>): (r: seq<Frame>)
    requires fs != []
    ensures |r| == |fs|
  {
    Init(fs) + [Unfilled(Last(fs))]
  }

  function Stack(state: State, states: seq<State>): seq<Frame> {
    if state.StreamStartState? then [BeforeStream]
    else if state.EndState? then [AfterStream]
    else if AwaitsNode(state) then Unfill(Frames(states))
    else Frames(states) + Denotes(state)
  }

  function MarkCount(states: seq<State>): nat {
    if states == [] then 0 else MarkCount(Init(states)) + (if IsMarked(Last(states)) then 1 else 0)
  }

  /** The states stack inside a document. */
  predicate InsideDocument(states: seq<State>) {
    states != [] && states[0].DocumentEndState? && forall i :: 1 <= i < |states| ==> IsReturn(states[i])
  }

  predicate BetweenNodes(s: State) {
    || s.StreamStartState? || s.ImplicitDocumentStartState? || s.DocumentStartState?
    || s.DocumentEndState? || s.EndState?
  }

  predicate Opens(s: State, t: Token) {
    match s
    case BlockSequenceFirstEntryState => t.BlockSequenceStartToken?
    case BlockMappingFirstKeyState => t.BlockMappingStartToken?
    case FlowSequenceFirstEntryState => t.FlowSequenceStartToken?
    case FlowMappingFirstKeyState => t.FlowMappingStartToken?
    case _ => true
  }

  predicate Fits(m: Machine) {
    && m.pos <= |m.tokens| && m.error == NoError && (m.ended ==> m.state.EndState?)
    && (m.states == [] ==> BetweenNodes(m.state))
    && (m.states != [] ==>
          InsideDocument(m.states) && (AwaitsNode(m.state) || IsFirst(m.state) || IsContinuation(m.state)))
    && |m.marks| == MarkCount(m.states) + (if IsMarked(m.state) then 1 else 0)
    && (IsFirst(m.state) ==> m.pos < |m.tokens| && Opens(m.state, m.tokens[m.pos]))
  }

  /** In front of a node: what ParseNode finds, whatever the current state. */
  predicate NodeFits(m: Machine) {
    && m.pos <= |m.tokens| && m.error == NoError && !m.ended
    && InsideDocument(m.states) && |m.marks| == MarkCount(m.states)
  }

  /** A step goes well from frames `stack`: no crash, and an event that they accept, or an error. */
  predicate Advances(stack: seq<Frame>, m: Machine, o: Outcome) {
    && o.m.tokens == m.tokens && m.pos <= o.m.pos && o.m.error != Panic
    && (o.event.Some? <==> o.m.error == NoError)
    && (o.event.Some? ==> Fits(o.m) && Read(stack, o.event.value) == Some(Stack(o.m.state, o.m.states)))
  }

  // ---------------------------------------------------------------- stack facts

  lemma FramesPush(states: seq<State>, s: State)
    ensures Frames(states + [s]) == Frames(states) + Denotes(s)
    ensures MarkCount(states + [s]) == MarkCount(states) + (if IsMarked(s) then 1 else 0)
    ensures InsideDocument(states) && IsReturn(s) ==> InsideDocument(states + [s])
  {
    assert Init(states + [s]) == states;
  }

  /** Returning to the state on top. */
  lemma PopFits(m: Machine)
    requires NodeFits(m)
    ensures var r := PopState(m);
            && Fits(r) && Stack(r.state, r.states) == Frames(m.states)
            && Awaits(Unfilled(Last(Frames(m.states))))
            && Filled(Unfilled(Last(Frames(m.states)))) == Last(Frames(m.states))
  {
    var s := Last(m.states);
    assert m.states == Init(m.states) + [s];
    if |m.states| > 1 { assert IsReturn(m.states[|m.states| - 1]); }
  }

  lemma FillUnfill(fs: seq<Frame>)
    requires fs != [] && Awaits(Unfilled(Last(fs))) && Filled(Unfilled(Last(fs))) == Last(fs)
    ensures Fill(Unfill(fs)) == fs
  {
  }

  // ---------------------------------------------------------------- nodes

  lemma LeafAdvances(m: Machine, e: Event, n: Machine, skip: bool)
    requires NodeFits(m) && IsLeaf(e) && (skip ==> m.pos < |m.tokens| && !m.tokens[m.pos].StreamEndToken?)
    requires n == if skip then Skip(PopState(m)) else PopState(m)
    requires skip ==> !IsFirst(PopState(m).state)
    ensures Advances(Unfill(Frames(m.states)), m, Emit(n, e))
  {
    hide Frames, MarkCount, InsideDocument, Opens, Denotes;
    PopFits(m);
    FillUnfill(Frames(m.states));
  }

  lemma PopIsNotFirst(m: Machine)
    requires NodeFits(m)
    ensures !IsFirst(PopState(m).state)
  {
    if |m.states| > 1 { assert IsReturn(m.states[|m.states| - 1]); }
  }

  lemma CollectionAdvances(m: Machine, s: State, e: Event)
    requires NodeFits(m) && (IsFirst(s) || s.IndentlessSequenceEntryState?)
    requires (e.SequenceStartEvent? && Denotes(s) == [InSequence]) || (e.MappingStartEvent? && Denotes(s) == [AtKey])
    requires IsFirst(s) ==> m.pos < |m.tokens| && Opens(s, m.tokens[m.pos])
    ensures Advances(Unfill(Frames(m.states)), m, Emit(m.(state := s), e))
  {
    hide Frames, MarkCount, InsideDocument, Opens, Denotes;
    PopFits(m);
    FillUnfill(Frames(m.states));
  }

  lemma ContentAdvances(m: Machine, anchor: string, tag: string, block: bool, indentless: bool)
    requires NodeFits(m) && m.pos < |m.tokens|
    ensures Advances(Unfill(Frames(m.states)), m, ParseContent(m, m.tokens[m.pos], anchor, tag, block, indentless))
  {
    var t := m.tokens[m.pos];
    hide Frames, MarkCount, InsideDocument, NodeFits, Advances, Unfill;
    PopIsNotFirst(m);
    if indentless && t.BlockEntryToken? {
      CollectionAdvances(m, IndentlessSequenceEntryState, SequenceStartEvent(anchor, tag, tag == "", BlockStyle));
    } else if t.ScalarToken? {
      LeafAdvances(m, ScalarOf(t, anchor, tag), Skip(PopState(m)), true);
    } else if t.FlowSequenceStartToken? {
      CollectionAdvances(m, FlowSequenceFirstEntryState, SequenceStartEvent(anchor, tag, tag == "", FlowStyle));
    } else if t.FlowMappingStartToken? {
      CollectionAdvances(m, FlowMappingFirstKeyState, MappingStartEvent(anchor, tag, tag == "", FlowStyle));
    } else if block && t.BlockSequenceStartToken? {
      CollectionAdvances(m, BlockSequenceFirstEntryState, SequenceStartEvent(anchor, tag, tag == "", BlockStyle));
    } else if block && t.BlockMappingStartToken? {
      CollectionAdvances(m, BlockMappingFirstKeyState, MappingStartEvent(anchor, tag, tag == "", BlockStyle));
    } else if anchor != "" || tag != "" {
      LeafAdvances(m, ScalarEvent(anchor, tag, "", tag == "", false, PlainStyle), PopState(m), false);
    } else {
      FailAdvances(m, Unfill(Frames(m.states)), m);
    }
  }

  lemma FailAdvances(m: Machine, stack: seq<Frame>, n: Machine)
    requires n.tokens == m.tokens && m.pos <= n.pos && n.error != Panic
    ensures Advances(stack, m, Fail(n)) && Advances(stack, m, NoToken(n))
  {
  }

  lemma AdvancesFrom(stack: seq<Frame>, m: Machine, n: Machine, o: Outcome)
    requires Advances(stack, n, o) && n.tokens == m.tokens && m.pos <= n.pos
    ensures Advances(stack, m, o)
  {
  }

  lemma NodeAdvances(m: Machine, block: bool, indentless: bool)
    requires NodeFits(m)
    ensures Advances(Unfill(Frames(m.states)), m, ParseNode(m, block, indentless))
  {
    hide Frames, MarkCount, InsideDocument, Unfill, Advances, ReadProperties, NoToken, Fail, IsFirst, PopState, Skip;
    var stack := Unfill(Frames(m.states));
    if Peek(m).None? {
      FailAdvances(m, stack, m);
    } else if m.tokens[m.pos].AliasToken? {
      PopIsNotFirst(m);
      LeafAdvances(m, AliasEvent(m.tokens[m.pos].name), Skip(PopState(m)), true);
    } else {
      PropertiesAdvance(m, block, indentless);
    }
  }

  lemma PropertiesAdvance(m: Machine, block: bool, indentless: bool)
    requires NodeFits(m) && m.pos < |m.tokens| && !m.tokens[m.pos].AliasToken?
    ensures Advances(Unfill(Frames(m.states)), m, ParseNode(m, block, indentless))
  {
    hide Frames, MarkCount, InsideDocument, Unfill, Advances, ReadProperties, Resolve, ParseContent, NoToken, Fail;
    var stack, p := Unfill(Frames(m.states)), ReadProperties(m);
    FailAdvances(m, stack, p.m);
    if Peek(p.m).Some? && Resolve(p.m.directives, p.tag).Some? {
      ContentAdvances(p.m, p.anchor, Resolve(p.m.directives, p.tag).value, block, indentless);
      AdvancesFrom(stack, m, p.m, ParseNode(m, block, indentless));
    }
  }

  // ---------------------------------------------------------------- inside collections

  /** Within a marked or indentless collection. */
  predicate CollectionFits(m: Machine, s: State) {
    && m.pos <= |m.tokens| && m.error == NoError && !m.ended && InsideDocument(m.states) && IsContinuation(s)
    && |m.marks| == MarkCount(m.states) + (if IsMarked(s) then 1 else 0)
  }

  /** One more node fills the innermost frame of `s` and leads to `next`. */
  predicate LeadsTo(s: State, next: State) {
    && IsReturn(next) && IsContinuation(s) && IsMarked(s) == IsMarked(next) && InPair(s) == InPair(next)
    && Awaits(Innermost(s)) && Innermost(next) == Filled(Innermost(s))
  }

  lemma LeadsToStacks(s: State, next: State)
    requires LeadsTo(s, next)
    ensures Awaits(Last(Denotes(s))) && Fill(Denotes(s)) == Denotes(next)
    ensures Unfill(Denotes(next)) == Denotes(s)
    ensures IsReturn(next) && IsContinuation(s) && IsMarked(s) == IsMarked(next)
  {
  }

  lemma UnfillConcat(a: seq<Frame>, b: seq<Frame>)
    requires b != []
    ensures Unfill(a + b) == a + Unfill(b)
    ensures Last(a + b) == Last(b) && Init(a + b) == a + Init(b)
  {
  }

  lemma PushFits(m: Machine, s: State, next: State)
    requires CollectionFits(m, s) && LeadsTo(s, next)
    ensures NodeFits(Push(m, next))
  {
    hide Frames, MarkCount, InsideDocument, Denotes;
    FramesPush(m.states, next);
  }

  lemma PushAdvances(m: Machine, s: State, next: State, block: bool, indentless: bool)
    requires CollectionFits(m, s) && LeadsTo(s, next)
    ensures Advances(Frames(m.states) + Denotes(s), m, ParseNode(Push(m, next), block, indentless))
  {
    hide Frames, MarkCount, InsideDocument, Advances, ParseNode, Denotes, Unfill, LeadsTo;
    LeadsToStacks(s, next);
    FramesPush(m.states, next);
    NodeAdvances(Push(m, next), block, indentless);
    UnfillConcat(Frames(m.states), Denotes(next));
    AdvancesFrom(Frames(m.states) + Denotes(s), m, Push(m, next), ParseNode(Push(m, next), block, indentless));
  }

  lemma EmptyAdvances(m: Machine, s: State, next: State)
    requires CollectionFits(m, s) && LeadsTo(s, next)
    ensures Advances(Frames(m.states) + Denotes(s), m, EmitEmpty(m.(state := next)))
  {
    hide Frames, MarkCount, Unfill, Denotes, LeadsTo;
    LeadsToStacks(s, next);
    var stack := Frames(m.states) + Denotes(s);
    UnfillConcat(Frames(m.states), Denotes(s));
    assert Fill(stack) == Frames(m.states) + Denotes(next);
  }

  lemma NodeOrAdvances(m: Machine, s: State, absent: bool, next: State, block: bool, indentless: bool)
    requires CollectionFits(m, s) && LeadsTo(s, next)
    ensures Advances(Frames(m.states) + Denotes(s), m, NodeOr(m, absent, next, block, indentless))
  {
    hide Frames, CollectionFits, LeadsTo, Advances, ParseNode, Denotes;
    if absent { EmptyAdvances(m, s, next); } else { PushAdvances(m, s, next, block, indentless); }
  }

  lemma CloseAdvances(m: Machine, s: State, e: Event)
    requires CollectionFits(m, s) && m.pos < |m.tokens| && ClosedBy(s, e) && !m.tokens[m.pos].StreamEndToken?
    ensures Advances(Frames(m.states) + Denotes(s), m, Close(m, e))
  {
    hide Frames, MarkCount, InsideDocument, Opens;
    var n := m.(marks := Init(m.marks));
    PopFits(n);
    PopIsNotFirst(n);
    assert Init(Frames(m.states) + Denotes(s)) == Frames(m.states);
  }

  // ---------------------------------------------------------------- the productions

  /** An opened collection is marked; what was FIRST has become the collection's own state. */
  lemma OpenFits(m: Machine, s: State)
    requires Fits(m) && IsFirst(m.state) && IsMarked(s) && !InPair(s) && Innermost(s) == Innermost(m.state)
    ensures var r := Open(m);
            && CollectionFits(r, s) && r.tokens == m.tokens && m.pos <= r.pos && r.states == m.states
            && Frames(r.states) + Denotes(s) == Stack(m.state, m.states)
  {
    hide Frames, MarkCount, InsideDocument;
  }

  lemma CollectionStack(m: Machine)
    requires Fits(m) && IsContinuation(m.state)
    ensures CollectionFits(m, m.state) && Frames(m.states) + Denotes(m.state) == Stack(m.state, m.states)
  {
  }

  lemma SkipFits(m: Machine, s: State)
    requires CollectionFits(m, s) && m.pos < |m.tokens| && !m.tokens[m.pos].StreamEndToken?
    ensures CollectionFits(Skip(m), s) && Skip(m) == m.(pos := m.pos + 1, ended := false)
  {
  }

  /** The FIRST state of a collection, or its own. */
  predicate CanEnter(from: State, s: State) {
    IsContinuation(s) && (from == s || (IsFirst(from) && IsMarked(s) && !InPair(s) && Innermost(s) == Innermost(from)))
  }

  predicate ClosedBy(s: State, e: Event) {
    && IsMarked(s) && !InPair(s)
    && ((e.SequenceEndEvent? && Innermost(s) == InSequence) || (e.MappingEndEvent? && Innermost(s) == AtKey))
  }

  lemma Entrances()
    ensures CanEnter(BlockSequenceFirstEntryState, BlockSequenceEntryState)
    ensures CanEnter(BlockMappingFirstKeyState, BlockMappingKeyState)
    ensures CanEnter(FlowSequenceFirstEntryState, FlowSequenceEntryState)
    ensures CanEnter(FlowMappingFirstKeyState, FlowMappingKeyState)
    ensures forall s :: IsContinuation(s) ==> CanEnter(s, s)
    ensures ClosedBy(BlockSequenceEntryState, SequenceEndEvent) && ClosedBy(FlowSequenceEntryState, SequenceEndEvent)
    ensures ClosedBy(BlockMappingKeyState, MappingEndEvent) && ClosedBy(FlowMappingKeyState, MappingEndEvent)
  {
  }

  /** How the states of the collections follow each other. */
  lemma BlockTransitions()
    ensures LeadsTo(BlockSequenceEntryState, BlockSequenceEntryState)
    ensures LeadsTo(IndentlessSequenceEntryState, IndentlessSequenceEntryState)
    ensures LeadsTo(BlockMappingKeyState, BlockMappingValueState)
    ensures LeadsTo(BlockMappingValueState, BlockMappingKeyState)
  {
  }

  lemma FlowTransitions()
    ensures LeadsTo(FlowSequenceEntryState, FlowSequenceEntryState)
    ensures LeadsTo(FlowSequenceEntryMappingKeyState, FlowSequenceEntryMappingValueState)
    ensures LeadsTo(FlowSequenceEntryMappingValueState, FlowSequenceEntryMappingEndState)
    ensures LeadsTo(FlowMappingKeyState, FlowMappingValueState)
    ensures LeadsTo(FlowMappingKeyState, FlowMappingEmptyValueState)
    ensures LeadsTo(FlowMappingValueState, FlowMappingKeyState)
    ensures LeadsTo(FlowMappingEmptyValueState, FlowMappingKeyState)
  {
  }

  function Entered(m: Machine): Machine {
    if IsFirst(m.state) then Open(m) else m
  }

  lemma EnterFits(m: Machine, s: State)
    requires Fits(m) && CanEnter(m.state, s)
    ensures var r := Entered(m);
            && CollectionFits(r, s) && r.tokens == m.tokens && m.pos <= r.pos && r.states == m.states
            && Frames(r.states) + Denotes(s) == Stack(m.state, m.states)
  {
    hide Frames, MarkCount, CollectionFits, Stack, Denotes;
    if m.state == s { CollectionStack(m); } else { OpenFits(m, s); }
  }

  lemma NodeBehindAdvances(m: Machine, s: State, ends: Token -> bool, next: State, block: bool, indentless: bool)
    requires CollectionFits(m, s) && LeadsTo(s, next) && m.pos < |m.tokens| && !m.tokens[m.pos].StreamEndToken?
    ensures Advances(Frames(m.states) + Denotes(s), m, NodeBehind(m, ends, next, block, indentless))
  {
    hide Frames, Advances, NodeOr, Denotes, CollectionFits, LeadsTo;
    var n, stack := Skip(m), Frames(m.states) + Denotes(s);
    SkipFits(m, s);
    if Peek(n).None? {
      assert n.error == NoError by { assert CollectionFits(n, s); }
      FailAdvances(m, stack, n);
    } else {
      var absent := ends(n.tokens[n.pos]);
      NodeOrAdvances(n, s, absent, next, block, indentless);
      AdvancesFrom(stack, m, n, NodeOr(n, absent, next, block, indentless));
    }
  }

  /** No token, or one that does not belong here. */
  lemma StuckAdvances(m: Machine, s: State)
    requires CollectionFits(m, s)
    ensures var stack := Frames(m.states) + Denotes(s);
            Advances(stack, m, NoToken(m)) && (IsMarked(s) ==> Advances(stack, m, Fail(PopMark(m))))
  {
    hide Frames, MarkCount, Denotes;
  }

  function TokenAt(m: Machine): Token
    requires m.pos < |m.tokens|
  {
    m.tokens[m.pos]
  }

  lemma BlockSequenceAdvances(m: Machine, first: bool)
    requires Fits(m) && m.state == if first then BlockSequenceFirstEntryState else BlockSequenceEntryState
    ensures Advances(Stack(m.state, m.states), m, ParseBlockSequenceEntry(m, first))
  {
    var s := BlockSequenceEntryState;
    hide Frames, Fits, Advances, NodeBehind, Close, Stack, CollectionFits, Open, PopMark, NoToken, Fail, Skip, CanEnter,
      LeadsTo, ClosedBy, Denotes;
    Entrances();
    BlockTransitions();
    EnterFits(m, s);
    var n := Entered(m);
    StuckAdvances(n, s);
    if Peek(n).Some? && TokenAt(n).BlockEndToken? {
      CloseAdvances(n, s, SequenceEndEvent);
    } else if Peek(n).Some? && TokenAt(n).BlockEntryToken? {
      NodeBehindAdvances(n, s, EndsBlockItem, s, true, false);
    }
    AdvancesFrom(Stack(m.state, m.states), m, n, ParseBlockSequenceEntry(m, first));
  }

  lemma IndentlessEndAdvances(m: Machine)
    requires CollectionFits(m, IndentlessSequenceEntryState)
    ensures Advances(Frames(m.states) + [InSequence], m, Emit(PopState(m), SequenceEndEvent))
  {
    hide Frames, MarkCount, InsideDocument, Opens;
    assert NodeFits(m);
    PopFits(m);
    assert Init(Frames(m.states) + [InSequence]) == Frames(m.states);
  }

  lemma IndentlessSequenceAdvances(m: Machine)
    requires Fits(m) && m.state == IndentlessSequenceEntryState
    ensures Advances(Stack(m.state, m.states), m, ParseIndentlessSequenceEntry(m))
  {
    hide Frames, Fits, Advances, NodeBehind, Stack, CollectionFits, PopState, NoToken, Fail, Skip, LeadsTo;
    var s := IndentlessSequenceEntryState;
    BlockTransitions();
    CollectionStack(m);
    StuckAdvances(m, s);
    if Peek(m).Some? && TokenAt(m).BlockEntryToken? {
      NodeBehindAdvances(m, s, EndsIndentlessItem, s, true, false);
    } else if Peek(m).Some? {
      IndentlessEndAdvances(m);
    }
  }

  lemma BlockMappingKeyAdvances(m: Machine, first: bool)
    requires Fits(m) && m.state == if first then BlockMappingFirstKeyState else BlockMappingKeyState
    ensures Advances(Stack(m.state, m.states), m, ParseBlockMappingKey(m, first))
  {
    var s := BlockMappingKeyState;
    hide Frames, Fits, Advances, NodeBehind, Close, Stack, CollectionFits, Open, PopMark, NoToken, Fail, Skip, CanEnter,
      LeadsTo, ClosedBy, Denotes;
    Entrances();
    BlockTransitions();
    EnterFits(m, s);
    var n := Entered(m);
    StuckAdvances(n, s);
    if Peek(n).Some? && TokenAt(n).BlockEndToken? {
      CloseAdvances(n, s, MappingEndEvent);
    } else if Peek(n).Some? && TokenAt(n).KeyToken? {
      NodeBehindAdvances(n, s, EndsBlockPair, BlockMappingValueState, true, true);
    }
    AdvancesFrom(Stack(m.state, m.states), m, n, ParseBlockMappingKey(m, first));
  }

  lemma BlockMappingValueAdvances(m: Machine)
    requires Fits(m) && m.state == BlockMappingValueState
    ensures Advances(Stack(m.state, m.states), m, ParseBlockMappingValue(m))
  {
    var s := BlockMappingValueState;
    hide Frames, Fits, Advances, NodeBehind, Stack, CollectionFits, Open, PopMark, NoToken, Fail, Skip, LeadsTo,
      Denotes;
    BlockTransitions();
    CollectionStack(m);
    StuckAdvances(m, s);
    if Peek(m).Some? && TokenAt(m).ValueToken? {
      NodeBehindAdvances(m, s, EndsBlockPair, BlockMappingKeyState, true, true);
    } else if Peek(m).Some? {
      EmptyAdvances(m, s, BlockMappingKeyState);
    }
  }

  lemma PairInSequenceAdvances(m: Machine)
    requires CollectionFits(m, FlowSequenceEntryState) && m.pos < |m.tokens| && m.tokens[m.pos].KeyToken?
    ensures Advances(Frames(m.states) + [InSequence], m,
                     Emit(Skip(m.(state := FlowSequenceEntryMappingKeyState)),
                          MappingStartEvent("", "", true, FlowStyle)))
  {
    hide Frames, MarkCount;
    var stack := Frames(m.states) + [InSequence];
    assert Fill(stack) + [AtKey] == Frames(m.states) + [InSequence, AtKey];
  }

  lemma FlowSequenceItemAdvances(m: Machine)
    requires CollectionFits(m, FlowSequenceEntryState) && m.pos < |m.tokens|
    ensures Advances(Frames(m.states) + Denotes(FlowSequenceEntryState), m, FlowSequenceItem(m, m.tokens[m.pos]))
  {
    var s := FlowSequenceEntryState;
    hide Frames, Advances, ParseNode, Close, CollectionFits;
    var t := m.tokens[m.pos];
    if t.KeyToken? {
      PairInSequenceAdvances(m);
    } else if !t.FlowSequenceEndToken? {
      PushAdvances(m, s, s, false, false);
    } else {
      CloseAdvances(m, s, SequenceEndEvent);
    }
  }

  lemma FlowSequenceAdvances(m: Machine, first: bool)
    requires Fits(m) && m.state == if first then FlowSequenceFirstEntryState else FlowSequenceEntryState
    ensures Advances(Stack(m.state, m.states), m, ParseFlowSequenceEntry(m, first))
  {
    var s := FlowSequenceEntryState;
    hide Frames, Fits, Advances, FlowSequenceItem, Close, Stack, CollectionFits, Open, PopMark, NoToken, Fail, CanEnter,
      LeadsTo, ClosedBy, Denotes;
    Entrances();
    FlowTransitions();
    EnterFits(m, s);
    var n := Entered(m);
    var stack := Frames(n.states) + Denotes(s);
    StuckAdvances(n, s);
    if Peek(n).Some? {
      if TokenAt(n).FlowSequenceEndToken? {
        CloseAdvances(n, s, SequenceEndEvent);
      } else if first {
        FlowSequenceItemAdvances(n);
      } else if TokenAt(n).FlowEntryToken? {
        SkipFits(n, s);
        var n1 := Skip(n);
        StuckAdvances(n1, s);
        if Peek(n1).Some? { FlowSequenceItemAdvances(n1); }
        AdvancesFrom(stack, n, n1, ParseFlowSequenceEntry(m, first));
      }
    }
    AdvancesFrom(stack, m, n, ParseFlowSequenceEntry(m, first));
  }

  lemma FlowSequenceEntryMappingKeyAdvances(m: Machine)
    requires Fits(m) && m.state == FlowSequenceEntryMappingKeyState
    ensures Advances(Stack(m.state, m.states), m, ParseFlowSequenceEntryMappingKey(m))
  {
    var s, next := FlowSequenceEntryMappingKeyState, FlowSequenceEntryMappingValueState;
    hide Frames, Fits, Advances, ParseNode, Stack, CollectionFits, Open, PopMark, NoToken, Fail, LeadsTo, Denotes;
    FlowTransitions();
    CollectionStack(m);
    StuckAdvances(m, s);
    if Peek(m).Some? {
      var t := TokenAt(m);
      if !t.ValueToken? && !t.FlowEntryToken? && !t.FlowSequenceEndToken? {
        PushAdvances(m, s, next, false, false);
      } else {
        SkipFits(m, s);
        EmptyAdvances(Skip(m), s, next);
        AdvancesFrom(Frames(m.states) + Denotes(s), m, Skip(m), ParseFlowSequenceEntryMappingKey(m));
      }
    }
  }

  lemma FlowSequenceEntryMappingValueAdvances(m: Machine)
    requires Fits(m) && m.state == FlowSequenceEntryMappingValueState
    ensures Advances(Stack(m.state, m.states), m, ParseFlowSequenceEntryMappingValue(m))
  {
    var s, next := FlowSequenceEntryMappingValueState, FlowSequenceEntryMappingEndState;
    hide Frames, Fits, Advances, NodeBehind, Stack, CollectionFits, Open, PopMark, NoToken, Fail, Skip, LeadsTo,
      Denotes;
    FlowTransitions();
    CollectionStack(m);
    StuckAdvances(m, s);
    if Peek(m).Some? && TokenAt(m).ValueToken? {
      NodeBehindAdvances(m, s, EndsPairInSequence, next, false, false);
    } else if Peek(m).Some? {
      EmptyAdvances(m, s, next);
    }
  }

  lemma FlowSequenceEntryMappingEndAdvances(m: Machine)
    requires Fits(m) && m.state == FlowSequenceEntryMappingEndState
    ensures Advances(Stack(m.state, m.states), m, ParseFlowSequenceEntryMappingEnd(m))
  {
    hide Frames, MarkCount;
    CollectionStack(m);
    assert Init(Frames(m.states) + [InSequence, AtKey]) == Frames(m.states) + [InSequence];
  }

  lemma FlowMappingItemAdvances(m: Machine)
    requires CollectionFits(m, FlowMappingKeyState) && m.pos < |m.tokens|
    ensures Advances(Frames(m.states) + Denotes(FlowMappingKeyState), m, FlowMappingItem(m, m.tokens[m.pos]))
  {
    var s := FlowMappingKeyState;
    hide Frames, Advances, ParseNode, Close, CollectionFits, NodeBehind;
    var t := m.tokens[m.pos];
    if t.KeyToken? {
      NodeBehindAdvances(m, s, EndsFlowKey, FlowMappingValueState, false, false);
    } else if !t.FlowMappingEndToken? {
      PushAdvances(m, s, FlowMappingEmptyValueState, false, false);
    } else {
      CloseAdvances(m, s, MappingEndEvent);
    }
  }

  lemma FlowMappingKeyAdvances(m: Machine, first: bool)
    requires Fits(m) && m.state == if first then FlowMappingFirstKeyState else FlowMappingKeyState
    ensures Advances(Stack(m.state, m.states), m, ParseFlowMappingKey(m, first))
  {
    var s := FlowMappingKeyState;
    hide Frames, Fits, Advances, FlowMappingItem, Close, Stack, CollectionFits, Open, PopMark, NoToken, Fail, CanEnter,
      LeadsTo, ClosedBy, Denotes;
    Entrances();
    FlowTransitions();
    EnterFits(m, s);
    var n := Entered(m);
    var stack := Frames(n.states) + Denotes(s);
    StuckAdvances(n, s);
    if Peek(n).Some? {
      if TokenAt(n).FlowMappingEndToken? {
        CloseAdvances(n, s, MappingEndEvent);
      } else if first {
        FlowMappingItemAdvances(n);
      } else if TokenAt(n).FlowEntryToken? {
        SkipFits(n, s);
        var n1 := Skip(n);
        StuckAdvances(n1, s);
        if Peek(n1).Some? { FlowMappingItemAdvances(n1); }
        AdvancesFrom(stack, n, n1, ParseFlowMappingKey(m, first));
      }
    }
    AdvancesFrom(stack, m, n, ParseFlowMappingKey(m, first));
  }

  lemma FlowMappingValueAdvances(m: Machine, empty: bool)
    requires Fits(m) && m.state == if empty then FlowMappingEmptyValueState else FlowMappingValueState
    ensures Advances(Stack(m.state, m.states), m, ParseFlowMappingValue(m, empty))
  {
    hide Frames, Fits, Advances, NodeBehind, Stack, CollectionFits, Open, PopMark, NoToken, Fail, Skip, LeadsTo,
      Denotes;
    FlowTransitions();
    CollectionStack(m);
    StuckAdvances(m, m.state);
    if Peek(m).Some? && !empty && TokenAt(m).ValueToken? {
      NodeBehindAdvances(m, m.state, EndsFlowValue, FlowMappingKeyState, false, false);
    } else if Peek(m).Some? {
      EmptyAdvances(m, m.state, FlowMappingKeyState);
    }
  }

  // ---------------------------------------------------------------- documents

  lemma DocumentOpens(m: Machine, n: Machine, s: State, e: Event)
    requires Fits(m) && m.states == [] && (m.state.ImplicitDocumentStartState? || m.state.DocumentStartState?)
    requires n.tokens == m.tokens && m.pos <= n.pos <= |n.tokens| && n.error == NoError
    requires n.states == [DocumentEndState] && n.marks == m.marks && n.state == s && AwaitsNode(s) && !n.ended
    requires e.DocumentStartEvent?
    ensures Advances([InStream], m, Emit(n, e))
  {
    assert Init([DocumentEndState]) == [];
    assert Frames([DocumentEndState]) == [InStream, InDocument(true)];
    assert Unfill([InStream, InDocument(true)]) == [InStream, InDocument(false)];
    assert [InStream] + [InDocument(false)] == [InStream, InDocument(false)];
  }

  lemma OutsideStacks()
    ensures Stack(ImplicitDocumentStartState, []) == Stack(DocumentStartState, []) == [InStream]
    ensures Stack(DocumentEndState, []) == [InStream, InDocument(true)]
    ensures MarkCount([]) == 0
  {
    assert Frames([]) == [InStream];
    assert Denotes(ImplicitDocumentStartState) == Denotes(DocumentStartState) == [];
    assert Denotes(DocumentEndState) == [InDocument(true)];
  }

  lemma StreamStartAdvances(m: Machine)
    requires Fits(m) && m.states == [] && m.state.StreamStartState?
    ensures Advances([BeforeStream], m, ParseStreamStart(m))
  {
    hide Frames, MarkCount, Stack;
    OutsideStacks();
    assert Init([BeforeStream]) + [InStream] == [InStream];
  }

  lemma StreamEndAdvances(m: Machine, n: Machine)
    requires Fits(m) && m.states == [] && (m.state.ImplicitDocumentStartState? || m.state.DocumentStartState?)
    requires n == m.(pos := n.pos, ended := n.ended) && m.pos <= n.pos < |n.tokens|
    ensures Advances([InStream], m, Emit(Skip(n.(state := EndState)), StreamEndEvent))
  {
    assert Init([InStream]) + [AfterStream] == [AfterStream];
  }

  lemma {:induction false} SkipDocumentEndsInside(m: Machine)
    requires m.pos <= |m.tokens|
    ensures SkipDocumentEnds(m).pos <= |m.tokens|
    decreases |m.tokens| - m.pos
  {
    if Peek(m) == Some(DocumentEndToken) { SkipDocumentEndsInside(Skip(m)); }
  }

  lemma DocumentStartAdvances(m: Machine, implicit: bool)
    requires Fits(m) && m.states == []
    requires m.state == if implicit then ImplicitDocumentStartState else DocumentStartState
    ensures Advances([InStream], m, ParseDocumentStart(m, implicit))
  {
    hide Advances, Frames, Unfill, SkipDocumentEnds, ProcessDirectives, StartsDocument;
    SkipDocumentEndsInside(m);
    var n := if implicit then m else SkipDocumentEnds(m);
    FailAdvances(m, [InStream], n);
    if Peek(n).Some? {
      var t := TokenAt(n);
      if implicit && !StartsDocument(t) && !t.StreamEndToken? {
        ImplicitDocumentAdvances(m, n);
      } else if !t.StreamEndToken? {
        ExplicitDocumentAdvances(m, n);
      } else {
        StreamEndAdvances(m, n);
      }
    }
  }

  lemma ImplicitDocumentAdvances(m: Machine, n: Machine)
    requires Fits(m) && m.states == [] && (m.state.ImplicitDocumentStartState? || m.state.DocumentStartState?)
    requires n == m.(pos := n.pos, ended := false) && m.pos <= n.pos < |n.tokens|
    ensures Advances([InStream], m, ImplicitDocument(n))
  {
    hide Frames, Unfill, ProcessDirectives;
    var d := ProcessDirectives(n, false, []);
    if d.m.error == NoError {
      var r := Push(d.m, DocumentEndState).(state := BlockNodeState);
      DocumentOpens(m, r, BlockNodeState, DocumentStartEvent(false, [], false));
    }
  }

  lemma ExplicitDocumentAdvances(m: Machine, n: Machine)
    requires Fits(m) && m.states == [] && (m.state.ImplicitDocumentStartState? || m.state.DocumentStartState?)
    requires n == m.(pos := n.pos, ended := false) && m.pos <= n.pos < |n.tokens|
    ensures Advances([InStream], m, ExplicitDocument(n))
  {
    hide Frames, Unfill, ProcessDirectives;
    var d := ProcessDirectives(n, false, []);
    FailAdvances(m, [InStream], d.m);
    if d.m.error == NoError && TokenAt(d.m).DocumentStartToken? {
      var r := Skip(Push(d.m, DocumentEndState).(state := DocumentContentState));
      DocumentOpens(m, r, DocumentContentState, DocumentStartEvent(d.version, d.tags, false));
    }
  }

  lemma DocumentContentAdvances(m: Machine)
    requires Fits(m) && AwaitsNode(m.state)
    ensures Advances(Stack(m.state, m.states), m, ParseDocumentContent(m))
  {
    hide Frames, InsideDocument, Unfill, MarkCount, ParseNode, Advances;
    FailAdvances(m, Stack(m.state, m.states), m);
    if Peek(m).Some? {
      LeafAdvances(m, Blank, PopState(m), false);
      NodeAdvances(m, true, false);
    }
  }

  lemma DocumentEndAdvances(m: Machine)
    requires Fits(m) && m.states == [] && m.state.DocumentEndState?
    ensures Advances(Stack(m.state, m.states), m, ParseDocumentEnd(m))
  {
    hide Frames, MarkCount, Stack;
    OutsideStacks();
    assert Init([InStream, InDocument(true)]) == [InStream];
  }

  // ---------------------------------------------------------------- every step, every run

  lemma CollectionStateAdvances(m: Machine)
    requires Fits(m) && (IsContinuation(m.state) || IsFirst(m.state))
    ensures Advances(Stack(m.state, m.states), m, StateMachine(m))
  {
    hide Fits, Advances, Stack, ParseBlockSequenceEntry, ParseIndentlessSequenceEntry, ParseBlockMappingKey,
      ParseBlockMappingValue, ParseFlowSequenceEntry, ParseFlowSequenceEntryMappingKey,
      ParseFlowSequenceEntryMappingValue, ParseFlowSequenceEntryMappingEnd, ParseFlowMappingKey, ParseFlowMappingValue;
    match m.state
    case BlockSequenceFirstEntryState => BlockSequenceAdvances(m, true);
    case BlockSequenceEntryState => BlockSequenceAdvances(m, false);
    case IndentlessSequenceEntryState => IndentlessSequenceAdvances(m);
    case BlockMappingFirstKeyState => BlockMappingKeyAdvances(m, true);
    case BlockMappingKeyState => BlockMappingKeyAdvances(m, false);
    case BlockMappingValueState => BlockMappingValueAdvances(m);
    case FlowSequenceFirstEntryState => FlowSequenceAdvances(m, true);
    case FlowSequenceEntryState => FlowSequenceAdvances(m, false);
    case FlowSequenceEntryMappingKeyState => FlowSequenceEntryMappingKeyAdvances(m);
    case FlowSequenceEntryMappingValueState => FlowSequenceEntryMappingValueAdvances(m);
    case FlowSequenceEntryMappingEndState => FlowSequenceEntryMappingEndAdvances(m);
    case FlowMappingFirstKeyState => FlowMappingKeyAdvances(m, true);
    case FlowMappingKeyState => FlowMappingKeyAdvances(m, false);
    case FlowMappingValueState => FlowMappingValueAdvances(m, false);
    case FlowMappingEmptyValueState => FlowMappingValueAdvances(m, true);
  }

  /** Every step of the machine. */
  lemma StateMachineAdvances(m: Machine)
    requires Fits(m) && !m.state.EndState?
    ensures Advances(Stack(m.state, m.states), m, StateMachine(m))
  {
    if IsContinuation(m.state) || IsFirst(m.state) {
      CollectionStateAdvances(m);
    } else if AwaitsNode(m.state) {
      assert NodeFits(m);
      NodeAdvances(m, true, false);
      NodeAdvances(m, true, true);
      NodeAdvances(m, false, false);
      DocumentContentAdvances(m);
    } else {
      assert BetweenNodes(m.state) && m.states == [];
      OutsideAdvances(m);
    }
  }

  lemma OutsideAdvances(m: Machine)
    requires Fits(m) && m.states == [] && BetweenNodes(m.state) && !m.state.EndState?
    ensures Advances(Stack(m.state, m.states), m, StateMachine(m))
  {
    hide Fits, Advances, ParseDocumentStart, ParseStreamStart, ParseDocumentEnd;
    assert Stack(DocumentStartState, []) == Stack(ImplicitDocumentStartState, []) == [InStream];
    match m.state
    case StreamStartState => StreamStartAdvances(m);
    case ImplicitDocumentStartState => DocumentStartAdvances(m, true);
    case DocumentStartState => DocumentStartAdvances(m, false);
    case DocumentEndState => DocumentEndAdvances(m);
  }

  /** The machine and everything it has produced so far. */
  datatype Run = Run(m: Machine, events: seq<Event>)

  /** What holds in every run: no crash, the events begin a stream, and they are complete at the end. */
  ghost predicate RunFits(r: Run) {
    && r.m.error != Panic
    && ReadAll([BeforeStream], r.events).Some?
    && (r.m.error == NoError ==> Fits(r.m) && ReadAll([BeforeStream], r.events) == Some(Stack(r.m.state, r.m.states)))
  }

  function Next(r: Run): Run {
    var o := Parse(r.m);
    Run(o.m, if o.event.Some? then r.events + [o.event.value] else r.events)
  }

  function RunFor(tokens: seq<Token>, n: nat): Run {
    if n == 0 then Run(Begin(tokens), []) else Next(RunFor(tokens, n - 1))
  }

  lemma NextFits(r: Run)
    requires RunFits(r)
    ensures RunFits(Next(r)) && Next(r).m.tokens == r.m.tokens
  {
    hide Fits, Stack, StateMachine, Read;
    if !(r.m.ended || r.m.error != NoError || r.m.state == EndState) {
      var o := StateMachine(r.m);
      StateMachineAdvances(r.m);
      if o.event.Some? { ReadAllConcat([BeforeStream], r.events, [o.event.value]); }
    }
  }

  lemma BeginFits(tokens: seq<Token>)
    ensures RunFits(Run(Begin(tokens), []))
  {
  }

  lemma {:induction false} EveryRunFits(tokens: seq<Token>, n: nat)
    ensures RunFits(RunFor(tokens, n)) && RunFor(tokens, n).m.tokens == tokens
  {
    hide RunFits, Next;
    if n == 0 {
      BeginFits(tokens);
    } else {
      EveryRunFits(tokens, n - 1);
      NextFits(RunFor(tokens, n - 1));
    }
  }

  lemma StackAtEnd(state: State, states: seq<State>)
    ensures Stack(state, states) == [AfterStream] <==> state.EndState?
  {
    FramesBegin(states);
  }

  lemma {:induction false} FramesBegin(states: seq<State>)
    ensures Frames(states)[0] == InStream
    ensures MarkCount([]) == 0
  {
    if states != [] { FramesBegin(Init(states)); }
  }

  /** The stream is complete exactly when the machine has reached its end, and then nothing is left open. */
  lemma RunIsStream(r: Run)
    requires RunFits(r)
    ensures IsStreamPrefix(r.events)
    ensures r.m.error == NoError ==> (r.m.state.EndState? <==> IsStream(r.events))
    ensures r.m.error == NoError && r.m.state.EndState? ==> r.m.states == [] && r.m.marks == []
  {
    hide Frames, Stack, IsStream, IsStreamPrefix;
    ReadIffPrefix(r.events);
    StackAtEnd(r.m.state, r.m.states);
    AcceptedIffStream(r.events);
    FramesBegin([]);
  }

  /** Whatever the tokens: no crash, and the events so far begin a stream. */
  lemma EventsBeginAStream(tokens: seq<Token>, n: nat)
    ensures var r := RunFor(tokens, n); r.m.error != Panic && IsStreamPrefix(r.events)
  {
    hide Fits, IsStreamPrefix;
    EveryRunFits(tokens, n);
    RunIsStream(RunFor(tokens, n));
  }

  lemma CompleteAtTheEnd(tokens: seq<Token>, n: nat)
    requires RunFor(tokens, n).m.error == NoError
    ensures var r := RunFor(tokens, n);
            && (r.m.state.EndState? <==> IsStream(r.events))
            && (r.m.state.EndState? ==> r.m.states == [] && r.m.marks == [])
  {
    hide RunFits, IsStream;
    EveryRunFits(tokens, n);
    RunIsStream(RunFor(tokens, n));
  }
}
