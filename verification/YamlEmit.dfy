/**
 The states of the YAML emitter on values: which frames of the event grammar they stand for, how many indents and
 flow levels belong to them, and how many events have to be waiting before one is emitted.
 */
module YamlEmit {
  import opened Common
  import opened YamlEvents

  datatype State =
    | StreamStartState
    | FirstDocumentStartState
    | DocumentStartState
    | DocumentContentState
    | DocumentEndState
    | FlowSequenceFirstItemState
    | FlowSequenceItemState
    | FlowMappingFirstKeyState
    | FlowMappingKeyState
    | FlowMappingSimpleValueState
    | FlowMappingValueState
    | BlockSequenceFirstItemState
    | BlockSequenceItemState
    | BlockMappingFirstKeyState
    | BlockMappingKeyState
    | BlockMappingSimpleValueState
    | BlockMappingValueState
    | EndState

  // ---------------------------------------------------------------- what the states stack stands for

  predicate IsFirst(s: State) {
    || s.FlowSequenceFirstItemState? || s.FlowMappingFirstKeyState?
    || s.BlockSequenceFirstItemState? || s.BlockMappingFirstKeyState?
  }

  predicate IsFlow(s: State) {
    s.FlowSequenceItemState? || s.FlowMappingKeyState? || s.FlowMappingSimpleValueState? || s.FlowMappingValueState?
  }

  /** Within a collection that has been indented. */
  predicate IsInside(s: State) {
    || IsFlow(s)
    || s.BlockSequenceItemState? || s.BlockMappingKeyState?
    || s.BlockMappingSimpleValueState? || s.BlockMappingValueState?
  }

  function Innermost(s: State): Frame {
    match s
    case DocumentEndState => InDocument(true)
    case FlowMappingFirstKeyState => AtKey
    case FlowMappingKeyState => AtKey
    case FlowMappingSimpleValueState => AtValue
    case FlowMappingValueState => AtValue
    case BlockMappingFirstKeyState => AtKey
    case BlockMappingKeyState => AtKey
    case BlockMappingSimpleValueState => AtValue
    case BlockMappingValueState => AtValue
    case _ => InSequence
  }

  function Frames(states: seq<State>): (fs: seq<Frame>)
    ensures fs != []
  {
    if states == [] then [InStream] else Frames(Init(states)) + [Innermost(Last(states))]
  }

  function Stack(state: State, states: seq<State>): seq<Frame> {
    match state
    case StreamStartState => [BeforeStream]
    case EndState => [AfterStream]
    case FirstDocumentStartState => [InStream]
    case DocumentStartState => [InStream]
    case DocumentContentState => [InStream, InDocument(false)]
    case _ => Frames(states) + [Innermost(state)]
  }

  function One(b: bool): nat {
    if b then 1 else 0
  }

  function InsideCount(states: seq<State>): nat {
    if states == [] then 0 else InsideCount(Init(states)) + One(IsInside(Last(states)))
  }

  function FlowCount(states: seq<State>): nat {
    if states == [] then 0 else FlowCount(Init(states)) + One(IsFlow(Last(states)))
  }

  /** Between two documents, or before the stream. */
  predicate AwaitsDocument(s: State) {
    s.StreamStartState? || s.FirstDocumentStartState? || s.DocumentStartState?
  }

  predicate BetweenNodes(s: State) {
    !IsFirst(s) && !IsInside(s)
  }

  predicate InsideDocument(states: seq<State>) {
    states != [] && states[0].DocumentEndState? && forall i :: 1 <= i < |states| ==> IsInside(states[i])
  }

  /** Below the current indent is the -1 of the document, and nothing else is negative. */
  predicate IndentsFit(indents: seq<int>, indent: int) {
    && (indents == [] ==> indent == -1)
    && (indents != [] ==> indents[0] == -1 && indent >= 0)
    && forall i :: 1 <= i < |indents| ==> indents[i] >= 0
  }

  /** What a flow collection holds is flow: no block collection is opened within one. */
  predicate FlowNests(states: seq<State>) {
    forall i, j :: 0 <= i < j < |states| && IsFlow(states[i]) ==> IsFlow(states[j])
  }

  predicate OpensFlow(s: State) {
    s.FlowSequenceFirstItemState? || s.FlowMappingFirstKeyState?
  }

  predicate EndsInFlow(states: seq<State>) {
    states != [] && IsFlow(Last(states))
  }

  /** One indent for each collection entered and one flow level for each flow collection. */
  predicate EmitFits(state: State, states: seq<State>, indents: seq<int>, indent: int, flowLevel: int) {
    && (states == [] ==> BetweenNodes(state))
    && (states != [] ==> InsideDocument(states) && !BetweenNodes(state))
    && FlowNests(states) && (EndsInFlow(states) ==> IsFlow(state) || OpensFlow(state))
    && |indents| == InsideCount(states) + One(IsInside(state))
    && flowLevel == FlowCount(states) + One(IsFlow(state))
    && (!state.StreamStartState? ==> IndentsFit(indents, indent))
  }

  /** In front of a node, whatever the current state. */
  predicate NodeFits(states: seq<State>, indents: seq<int>, indent: int, flowLevel: int) {
    && InsideDocument(states) && |indents| == InsideCount(states) && flowLevel == FlowCount(states)
    && FlowNests(states) && IndentsFit(indents, indent)
  }

  lemma FramesPush(states: seq<State>, s: State)
    ensures Frames(states + [s]) == Frames(states) + [Innermost(s)]
    ensures InsideCount(states + [s]) == InsideCount(states) + One(IsInside(s))
    ensures FlowCount(states + [s]) == FlowCount(states) + One(IsFlow(s))
    ensures InsideDocument(states) && IsInside(s) ==> InsideDocument(states + [s])
  {
    assert Init(states + [s]) == states;
  }

  /** At the bottom stands the end of the document, and only there. */
  lemma InsideTop(states: seq<State>)
    requires InsideDocument(states)
    ensures if |states| == 1 then Last(states).DocumentEndState?
            else IsInside(Last(states)) && InsideDocument(Init(states))
  {
  }

  lemma FlowNestsInit(states: seq<State>)
    requires FlowNests(states) && states != []
    ensures FlowNests(Init(states)) && (EndsInFlow(Init(states)) ==> IsFlow(Last(states)))
  {
  }

  lemma TopFrame(states: seq<State>)
    requires states != [] && (Last(states).DocumentEndState? || IsInside(Last(states)))
    ensures Stack(Last(states), Init(states)) == Frames(states)
    ensures Last(Frames(states)) == Innermost(Last(states)) && Awaits(Unfilled(Innermost(Last(states))))
  {
  }

  /** Back to the state on top. */
  lemma PopFits(states: seq<State>, indents: seq<int>, indent: int, flowLevel: int)
    requires NodeFits(states, indents, indent, flowLevel)
    ensures EmitFits(Last(states), Init(states), indents, indent, flowLevel)
    ensures Stack(Last(states), Init(states)) == Frames(states)
    ensures Last(Frames(states)) == Innermost(Last(states)) && Awaits(Unfilled(Innermost(Last(states))))
  {
    hide FlowNests, IndentsFit, Frames, Stack, EndsInFlow;
    InsideTop(states);
    FlowNestsInit(states);
    TopFrame(states);
  }

  /** The frames before the node that the state on top waits for. */
  function Unfill(fs: seq<Frame>): (r: seq<Frame>)
    requires fs != []
  {
    Init(fs) + [Unfilled(Last(fs))]
  }

  lemma FillUnfill(states: seq<State>)
    requires InsideDocument(states)
    ensures var fs := Unfill(Frames(states)); Awaits(Last(fs)) && Fill(fs) == Frames(states)
  {
    var s := Last(states);
    if |states| > 1 { assert IsInside(states[|states| - 1]); }
  }

  // ---------------------------------------------------------------- the steps

  /** An alias or scalar in front of the state on top. */
  lemma LeafFits(states: seq<State>, indents: seq<int>, indent: int, flowLevel: int, e: Event)
    requires NodeFits(states, indents, indent, flowLevel) && IsLeaf(e)
    ensures EmitFits(Last(states), Init(states), indents, indent, flowLevel)
    ensures Read(Unfill(Frames(states)), e) == Some(Stack(Last(states), Init(states)))
  {
    hide Frames, InsideCount, FlowCount, EmitFits, IndentsFit;
    PopFits(states, indents, indent, flowLevel);
    FillUnfill(states);
  }

  lemma OpenFits(states: seq<State>, indents: seq<int>, indent: int, flowLevel: int, s: State, e: Event)
    requires NodeFits(states, indents, indent, flowLevel) && IsFirst(s) && (flowLevel > 0 ==> OpensFlow(s))
    requires (e.SequenceStartEvent? && Innermost(s) == InSequence) || (e.MappingStartEvent? && Innermost(s) == AtKey)
    ensures EmitFits(s, states, indents, indent, flowLevel)
    ensures Read(Unfill(Frames(states)), e) == Some(Stack(s, states))
  {
    hide Frames, InsideCount, FlowCount, IndentsFit;
    InFlowCounts(states);
    FillUnfill(states);
  }

  lemma InFlowCounts(states: seq<State>)
    ensures EndsInFlow(states) ==> FlowCount(states) > 0
  {
  }

  lemma NotANode(stack: seq<Frame>, e: Event)
    requires stack != [] && Awaits(Last(stack))
    requires !IsLeaf(e) && !e.SequenceStartEvent? && !e.MappingStartEvent?
    requires !(e.SequenceEndEvent? && Last(stack) == InSequence) && !(e.MappingEndEvent? && Last(stack) == AtKey)
    ensures Read(stack, e) == None
  {
  }

  /** Inside a collection in state `s`; a FIRST state has just become its own. */
  predicate InFits(s: State, states: seq<State>, indents: seq<int>, indent: int, flowLevel: int) {
    && IsInside(s) && InsideDocument(states) && FlowNests(states) && (EndsInFlow(states) ==> IsFlow(s))
    && |indents| == InsideCount(states) + 1 && flowLevel == FlowCount(states) + One(IsFlow(s))
    && IndentsFit(indents, indent)
  }

  /** The next state of the collection is pushed in front of a node. */
  lemma PushFits(s: State, next: State, states: seq<State>, indents: seq<int>, indent: int, flowLevel: int)
    requires InFits(s, states, indents, indent, flowLevel) && IsInside(next) && IsFlow(next) == IsFlow(s)
    requires Awaits(Innermost(s)) && Innermost(next) == Filled(Innermost(s))
    ensures NodeFits(states + [next], indents, indent, flowLevel)
    ensures Unfill(Frames(states + [next])) == Frames(states) + [Innermost(s)]
  {
    hide Frames, InsideCount, FlowCount, InsideDocument, IndentsFit;
    FramesPush(states, next);
    assert Init(Frames(states) + [Innermost(next)]) == Frames(states);
  }

  /** The end of a collection. */
  lemma CloseFits(s: State, states: seq<State>, indents: seq<int>, indent: int, flowLevel: int, e: Event)
    requires InFits(s, states, indents, indent, flowLevel)
    requires (e.SequenceEndEvent? && Innermost(s) == InSequence) || (e.MappingEndEvent? && Innermost(s) == AtKey)
    ensures EmitFits(Last(states), Init(states), Init(indents), Last(indents), flowLevel - One(IsFlow(s)))
    ensures Read(Frames(states) + [Innermost(s)], e) == Some(Stack(Last(states), Init(states)))
  {
    hide Frames, InsideCount, FlowCount, InsideDocument, EmitFits;
    PopFits(states, Init(indents), Last(indents), flowLevel - One(IsFlow(s)));
    assert Init(Frames(states) + [Innermost(s)]) == Frames(states);
  }

  /** A FIRST state is entered: one more indent. */
  lemma EnterFits(s: State, own: State, states: seq<State>, indents: seq<int>, indent: int, flowLevel: int, deeper: int)
    requires EmitFits(s, states, indents, indent, flowLevel) && IsFirst(s)
    requires IsInside(own) && Innermost(own) == Innermost(s) && IsFlow(own) == OpensFlow(s) && deeper >= 0
    ensures InFits(own, states, indents + [indent], deeper, flowLevel + One(IsFlow(own)))
    ensures Stack(s, states) == Frames(states) + [Innermost(own)]
  {
    hide Frames, InsideCount, FlowCount, InsideDocument;
  }

  lemma InsideFits(s: State, states: seq<State>, indents: seq<int>, indent: int, flowLevel: int)
    requires EmitFits(s, states, indents, indent, flowLevel) && IsInside(s)
    ensures InFits(s, states, indents, indent, flowLevel) && Stack(s, states) == Frames(states) + [Innermost(s)]
  {
  }

  // ---------------------------------------------------------------- flow levels

  lemma {:induction false} CountedEndsInFlow(states: seq<State>)
    requires FlowNests(states) && FlowCount(states) > 0
    ensures EndsInFlow(states)
  {
    if !IsFlow(Last(states)) {
      CountedEndsInFlow(Init(states));
    }
  }

  /**
   The flow level is positive exactly within a flow collection, and then nothing but flow collections is open or
   opened.
   */
  lemma OnlyFlowInFlow(state: State, states: seq<State>, indents: seq<int>, indent: int, flowLevel: int)
    requires EmitFits(state, states, indents, indent, flowLevel)
    ensures flowLevel > 0 <==> EndsInFlow(states) || IsFlow(state)
    ensures flowLevel > 0 ==> IsFlow(state) || OpensFlow(state)
    ensures forall i, j :: 0 <= i < j < |states| && IsFlow(states[i]) ==> IsFlow(states[j])
  {
    if FlowCount(states) > 0 { CountedEndsInFlow(states); }
    InFlowCounts(states);
  }

  // ---------------------------------------------------------------- lookahead

  function Level(e: Event): int {
    if e.StreamStartEvent? || e.DocumentStartEvent? || e.SequenceStartEvent? || e.MappingStartEvent? then 1
    else if e.StreamEndEvent? || e.DocumentEndEvent? || e.SequenceEndEvent? || e.MappingEndEvent? then -1
    else 0
  }

  function Levels(es: seq<Event>): int {
    if es == [] then 0 else Levels(es[..|es| - 1]) + Level(es[|es| - 1])
  }

  /** How many events have to follow the first one. */
  function Accumulate(e: Event): nat {
    if e.DocumentStartEvent? then 1 else if e.SequenceStartEvent? then 2 else if e.MappingStartEvent? then 3 else 0
  }

  predicate NeedMore(queue: seq<Event>) {
    || queue == []
    || (Accumulate(queue[0]) > 0 && |queue| <= Accumulate(queue[0])
        && forall k :: 1 <= k <= |queue| ==> Levels(queue[..k]) != 0)
  }

  /**
   Exactly when the head waits: the start of a document for one more event, the start of a sequence for two and that
   of a mapping for three, unless what it has started ends before that.
   */
  lemma WaitsFor(queue: seq<Event>)
    ensures NeedMore(queue) <==>
            || queue == []
            || (queue[0].DocumentStartEvent? && |queue| == 1)
            || (queue[0].SequenceStartEvent? && |queue| <= 2 && !(|queue| == 2 && Level(queue[1]) == -1))
            || (queue[0].MappingStartEvent? && |queue| <= 3 && !(|queue| >= 2 && Level(queue[1]) == -1)
                && !(|queue| == 3 && Level(queue[1]) == 0 && Level(queue[2]) == -1))
  {
    if queue != [] {
      LevelsOfThree(queue);
    }
  }

  lemma LevelsOfThree(queue: seq<Event>)
    requires queue != []
    ensures Levels(queue[..1]) == Level(queue[0])
    ensures |queue| >= 2 ==> Levels(queue[..2]) == Level(queue[0]) + Level(queue[1])
    ensures |queue| >= 3 ==> Levels(queue[..3]) == Level(queue[0]) + Level(queue[1]) + Level(queue[2])
  {
    assert queue[..1][..0] == [];
    if |queue| >= 2 { assert queue[..2][..1] == queue[..1]; }
    if |queue| >= 3 { assert queue[..3][..2] == queue[..2]; }
  }

  /** What counts as a start and as an end. */
  lemma LevelIs(e: Event)
    ensures Level(e) == 1 <==>
            e.StreamStartEvent? || e.DocumentStartEvent? || e.SequenceStartEvent? || e.MappingStartEvent?
    ensures Level(e) == -1 <==>
            e.StreamEndEvent? || e.DocumentEndEvent? || e.SequenceEndEvent? || e.MappingEndEvent?
    ensures -1 <= Level(e) <= 1
  {
  }

  /** When an event that opens a collection is emitted, the next one is there. */
  lemma NextIsWaiting(queue: seq<Event>)
    requires !NeedMore(queue) && (queue[0].SequenceStartEvent? || queue[0].MappingStartEvent?)
    ensures |queue| >= 2
  {
    if |queue| == 1 {
      assert queue[..1][..0] == [] && queue[..1] == queue;
      assert Levels(queue[..1]) == 1;
    }
  }

  /** From a stack of frames within a stream, closing what is open takes at least that many events. */
  lemma {:induction false} ClosingTakes(stack: seq<Frame>, es: seq<Event>)
    requires Reachable(stack) && stack[0] == InStream && ReadAll(stack, es) == Accepted
    ensures |es| >= |stack|
    decreases |es|
  {
    assert es != [];
    var next := Read(stack, es[0]).value;
    ReadKeepsReachable(stack, es[0]);
    if next[0] == InStream { ClosingTakes(next, es[1..]); }
  }

  lemma OpeningStack(stack: seq<Frame>, e: Event)
    requires Reachable(stack) && Read(stack, e).Some? && Accumulate(e) > 0
    ensures var next := Read(stack, e).value;
            && Reachable(next) && next[0] == InStream
            && |next| >= if e.DocumentStartEvent? then 2 else 3
  {
    hide Reachable;
    ReadKeepsReachable(stack, e);
    ReachableBottom(stack);
    ReachableBottom(Read(stack, e).value);
    ReachableTop(stack);
  }

  lemma ReachableBottom(stack: seq<Frame>)
    requires Reachable(stack)
    ensures stack != [] && (|stack| > 1 ==> stack[0] == InStream)
  {
  }

  /** Only within a document is a node awaited. */
  lemma ReachableTop(stack: seq<Frame>)
    requires Reachable(stack)
    ensures Awaits(Last(stack)) ==> |stack| >= 2
  {
  }

  /** In a complete stream no event waits for more. */
  lemma NothingWaits(stack: seq<Frame>, queue: seq<Event>)
    requires Reachable(stack) && queue != [] && ReadAll(stack, queue) == Accepted
    ensures !NeedMore(queue)
  {
    hide Read, Reachable, Levels;
    if Accumulate(queue[0]) > 0 {
      OpeningStack(stack, queue[0]);
      ClosingTakes(Read(stack, queue[0]).value, queue[1..]);
    }
  }

  // ---------------------------------------------------------------- outside of documents

  lemma {:induction false} FramesBegin(states: seq<State>)
    ensures Frames(states)[0] == InStream && |Frames(states)| == |states| + 1
    ensures InsideCount([]) == FlowCount([]) == 0
  {
    if states != [] { FramesBegin(Init(states)); }
  }

  /** Only between documents is the stream the innermost frame, and there nothing is left over. */
  lemma OutsideIsClean(state: State, states: seq<State>, indents: seq<int>, indent: int, flowLevel: int)
    requires EmitFits(state, states, indents, indent, flowLevel)
    requires Stack(state, states) == [InStream] || Stack(state, states) == [AfterStream]
    ensures states == [] && indents == [] && flowLevel == 0 && indent == -1
    ensures Stack(state, states) == [AfterStream] <==> state.EndState?
  {
    FramesBegin(states);
  }

  lemma CollectionStack(state: State, states: seq<State>, indents: seq<int>, indent: int, flowLevel: int)
    requires EmitFits(state, states, indents, indent, flowLevel) && !BetweenNodes(state)
    ensures |Stack(state, states)| >= 3
  {
    FramesBegin(states);
  }

  /** A step within a document stays there, unless it is the end of the document. */
  lemma StaysInside(stack: seq<Frame>, e: Event, state: State, states: seq<State>)
    requires |stack| >= 3 || (|stack| == 2 && stack[0] == InStream && stack[1] == InDocument(false))
    requires Read(stack, e) == Some(Stack(state, states))
    ensures !AwaitsDocument(state)
  {
  }

  /** What the recognizer has read up to the end of a document leaves the stream as the only frame. */
  lemma DocumentEndReads(done: seq<Event>)
    requires done != [] && Last(done).DocumentEndEvent? && ReadAll([BeforeStream], done).Some?
    ensures ReadAll([BeforeStream], done) == Some([InStream])
  {
    var before := Init(done);
    assert done == before + [Last(done)];
    ReadAllConcat([BeforeStream], before, [Last(done)]);
    ReadAllKeepsReachable([BeforeStream], before);
    var stack := ReadAll([BeforeStream], before).value;
    assert Read(stack, Last(done)) == Some(Init(stack));
    assert Init(stack) == [InStream];
  }

  /** The next event of a prefix is accepted. */
  lemma NextIsRead(done: seq<Event>, queue: seq<Event>, stack: seq<Frame>)
    requires queue != [] && ReadAll([BeforeStream], done) == Some(stack)
    ensures IsStreamPrefix(done + queue) ==> Read(stack, queue[0]).Some?
    ensures Read(stack, queue[0]).Some? ==> ReadAll([BeforeStream], done + [queue[0]]) == Read(stack, queue[0])
  {
    hide Read, IsStreamPrefix;
    ReadIffPrefix(done + queue);
    ReadAllConcat([BeforeStream], done, queue);
    ReadAllConcat([BeforeStream], done, [queue[0]]);
  }
}
