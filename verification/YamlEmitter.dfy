/**
 The emitter's state machine in place.  The text it writes is left out, and with it what only the text decides:
 whether a scalar is short enough for a simple key, and whether the last thing written was indentation.
 */
module YamlEmitter {
  import opened Common
  import opened YamlEvents
  import opened YamlEmit

  /** What analyze_event checks. */
  predicate AnchorFits(e: Event) {
    match e
    case AliasEvent(anchor) => anchor != "" && IsAlpha(anchor)
    case ScalarEvent(anchor, _, _, _, _, _) => IsAlpha(anchor)
    case SequenceStartEvent(anchor, _, _, _) => IsAlpha(anchor)
    case MappingStartEvent(anchor, _, _, _) => IsAlpha(anchor)
    case _ => true
  }

  /** What is checked when the event is emitted: its directives, or its tag or lack of one. */
  predicate Emittable(e: Event) {
    && (e.DocumentStartEvent? ==> DirectivesFit(e.tags))
    && (e.ScalarEvent? ==> e.tag != "" || e.implicit || e.quotedImplicit)
  }

  /** What the emitter demands of an event wherever it stands. */
  predicate EventFits(e: Event) {
    AnchorFits(e) && Emittable(e)
  }

  predicate DirectivesFit(ds: seq<TagDirective>) {
    && (forall i :: 0 <= i < |ds| ==> DirectiveFits(ds[i]))
    && forall i, j :: 0 <= i < j < |ds| ==> ds[i].handle != ds[j].handle
  }

  /** A handle is "!", or letters and digits between two "!"; the prefix is not empty. */
  predicate DirectiveFits(d: TagDirective) {
    && d.handle != "" && d.handle[0] == '!' && d.handle[|d.handle| - 1] == '!' && d.prefix != ""
    && forall k :: 1 <= k < |d.handle| - 1 ==> IsAlphaChar(d.handle[k])
  }

  predicate AllFit(es: seq<Event>) {
    forall i :: 0 <= i < |es| ==> EventFits(es[i])
  }

  predicate IsAlphaChar(c: char) {
    '0' <= c <= '9' || 'A' <= c <= 'Z' || 'a' <= c <= 'z' || c == '_' || c == '-'
  }

  predicate IsAlpha(s: string) {
    forall c <- s :: IsAlphaChar(c)
  }

  class Emitter {
    const canonical: bool
    var bestIndent: int
    const fitsKey: Event -> bool   // an alias or scalar, or an empty collection, short enough and on one line

    var state: State
    var states: seq<State>
    var indents: seq<int>
    var indent: int
    var flowLevel: int
    var mappingContext: bool
    var simpleKeyContext: bool
    var indention: bool
    var tagDirectives: seq<TagDirective>
    var events: seq<Event>
    var head: nat
    var error: bool

    ghost var done: seq<Event>   // the events emitted

    function Queue(): seq<Event>
      requires head <= |events|
      reads this
    {
      events[head..]
    }

    ghost predicate Sound()
      reads this
    {
      && head <= |events| && !error && (state.StreamStartState? || 2 <= bestIndent <= 9)
      && EmitFits(state, states, indents, indent, flowLevel)
      && ReadAll([BeforeStream], done) == Some(Stack(state, states))
      && (AwaitsDocument(state) ==> tagDirectives == [])
      && AllFit(done)
    }

    /** Between two calls: what is left waits for more. */
    ghost predicate Valid()
      reads this
    {
      Sound() && NeedMore(Queue())
    }

    /** Everything that has been passed in. */
    ghost function Fed(): seq<Event>
      requires head <= |events|
      reads this
    {
      done + Queue()
    }

    constructor (canonical: bool, bestIndent: int, fitsKey: Event -> bool)
      ensures Valid() && Fed() == [] && this.canonical == canonical
    {
      this.canonical := canonical;
      this.bestIndent := bestIndent;
      this.fitsKey := fitsKey;
      state, states, indents, indent, flowLevel := StreamStartState, [], [], -1, 0;
      mappingContext, simpleKeyContext, indention, error := false, false, false, false;
      tagDirectives, events, head, done := [], [], 0, [];
    }

    /** Some text has been written; whether it was indentation is left open. */
    method Write()
      modifies this`indention
    {
      indention := *;
    }

    method SetError() returns (ok: bool)
      modifies this`error
      ensures !ok && error
    {
      error := true;
      ok := false;
    }

    /** The first indent is 0, or the best indent in a flow collection or scalar. */
    method IncreaseIndent(flow: bool, indentless: bool)
      modifies this`indents, this`indent
      ensures indents == old(indents) + [old(indent)]
      ensures indent == if old(indent) < 0 then (if flow then bestIndent else 0)
                        else if indentless then old(indent) else old(indent) + bestIndent
    {
      indents := indents + [indent];
      if indent < 0 {
        if flow {
          indent := bestIndent;
        } else {
          indent := 0;
        }
      } else if !indentless {
        indent := indent + bestIndent;
      }
    }

    method PopState()
      requires states != []
      modifies this`state, this`states
      ensures state == Last(old(states)) && states == Init(old(states))
    {
      state := states[|states| - 1];
      states := states[..|states| - 1];
    }

    method PopIndent()
      requires indents != []
      modifies this`indents, this`indent
      ensures indent == Last(old(indents)) && indents == Init(old(indents))
    {
      indent := indents[|indents| - 1];
      indents := indents[..|indents| - 1];
    }

    ghost predicate Here()
      reads this
    {
      EmitFits(state, states, indents, indent, flowLevel)
    }

    /** After a node in front of the states `before`: behind a leaf the one on top comes back. */
    ghost predicate NodeDone(before: seq<State>, event: Event)
      requires before != []
      reads this`state, this`states
    {
      if IsLeaf(event) then state == Last(before) && states == Init(before) else states == before && IsFirst(state)
    }

    /** After one step within a collection, whose next state is `next` unless it has ended. */
    ghost predicate Moved(before: seq<State>, event: Event, next: State)
      reads this`state, this`states
    {
      if event.SequenceEndEvent? || event.MappingEndEvent? then
          before != [] && state == Last(before) && states == Init(before)
      else NodeDone(before + [next], event)
    }

    /** The indents of all open collections, the current one last. */
    function Indents(): seq<int>
      reads this`indents, this`indent
    {
      indents + [indent]
    }

    lemma InitBehind(s: seq<int>, x: int)
      ensures Init(s + [x]) == s
    {
    }

    /** A collection that is entered gets the indent `own`; when it ends, the one before it comes back. */
    predicate Indented(before: seq<int>, own: int, event: Event, first: bool)
      requires before != []
      reads this`indents, this`indent
    {
      var inside := if first then before + [own] else before;
      Indents() == if event.SequenceEndEvent? || event.MappingEndEvent? then Init(inside) else inside
    }

    // ---------------------------------------------------------------- lookahead

    /** When a collection begins, the event behind it is in the queue. */
    predicate Waiting()
      requires head < |events|
      reads this`events, this`head
    {
      events[head].SequenceStartEvent? || events[head].MappingStartEvent? ==> head + 1 < |events|
    }

    predicate CheckEmptySequence()
      requires head <= |events|
      reads this
    {
      |events| - head >= 2 && events[head].SequenceStartEvent? && events[head + 1].SequenceEndEvent?
    }

    predicate CheckEmptyMapping()
      requires head <= |events|
      reads this
    {
      |events| - head >= 2 && events[head].MappingStartEvent? && events[head + 1].MappingEndEvent?
    }

    predicate CheckSimpleKey()
      requires head < |events|
      reads this
    {
      match events[head]
      case AliasEvent(_) => fitsKey(events[head])
      case ScalarEvent(_, _, _, _, _, _) => fitsKey(events[head])
      case SequenceStartEvent(_, _, _, _) => CheckEmptySequence() && fitsKey(events[head])
      case MappingStartEvent(_, _, _, _) => CheckEmptyMapping() && fitsKey(events[head])
      case _ => false
    }

    // ---------------------------------------------------------------- nodes

    /** An alias, a scalar or the beginning of a collection, in the place of `event`; anything else is an error. */
    method EmitNode(event: Event, root: bool, sequence: bool, mapping: bool, simpleKey: bool) returns (ok: bool)
      requires NodeFits(states, indents, indent, flowLevel) && !error && 2 <= bestIndent
      requires head < |events| && event == events[head] && Waiting()
      modifies this`state, this`states, this`indents, this`indent, this`mappingContext, this`simpleKeyContext,
        this`indention, this`error
      ensures ok == !error == ((IsLeaf(event) || event.SequenceStartEvent? || event.MappingStartEvent?) &&
                               Emittable(event))
      ensures ok ==> indents == old(indents) && indent == old(indent)
      ensures ok ==> Here() && Read(Unfill(Frames(old(states))), event) == Some(Stack(state, states))
      ensures ok ==> NodeDone(old(states), event)
    {
      hide Frames, Unfill, InsideCount, FlowCount, IndentsFit, EmitFits, Read, Stack;
      mappingContext := mapping;
      simpleKeyContext := simpleKey;
      match event {
        case AliasEvent(_) => ok := EmitAlias(event);
        case ScalarEvent(_, _, _, _, _, _) => ok := EmitScalar(event);
        case SequenceStartEvent(_, _, _, _) => ok := EmitSequenceStart(event);
        case MappingStartEvent(_, _, _, _) => ok := EmitMappingStart(event);
        case _ => ok := SetError();
      }
    }

    method EmitAlias(event: Event) returns (ok: bool)
      requires NodeFits(states, indents, indent, flowLevel) && event.AliasEvent?
      modifies this`state, this`states, this`indention
      ensures ok && Here() && Read(Unfill(Frames(old(states))), event) == Some(Stack(state, states))
      ensures NodeDone(old(states), event)
    {
      hide Frames, Unfill, InsideCount, FlowCount, IndentsFit, EmitFits, Read, Stack;
      LeafFits(states, indents, indent, flowLevel, event);
      Write();
      PopState();
      ok := true;
    }

    /** The scalar is written with an indent of its own, which is never less than 2. */
    method EmitScalar(event: Event) returns (ok: bool)
      requires NodeFits(states, indents, indent, flowLevel) && event.ScalarEvent? && 2 <= bestIndent && !error
      modifies this`state, this`states, this`indents, this`indent, this`indention, this`error
      ensures ok == !error == (event.tag != "" || event.implicit || event.quotedImplicit)
      ensures ok ==> indents == old(indents) && indent == old(indent)
      ensures ok ==> Here() && Read(Unfill(Frames(old(states))), event) == Some(Stack(state, states))
      ensures ok ==> NodeDone(old(states), event)
    {
      hide Frames, Unfill, InsideCount, FlowCount, IndentsFit, EmitFits, Read, Stack;
      LeafFits(states, indents, indent, flowLevel, event);
      if event.tag == "" && !event.implicit && !event.quotedImplicit {
        ok := SetError();
        return;
      }
      Write();
      IncreaseIndent(true, false);
      ProcessScalar();
      PopIndent();
      PopState();
      ok := true;
    }

    method ProcessScalar()
      requires indent >= 2
      modifies this`indention
    {
      Write();
    }

    method EmitSequenceStart(event: Event) returns (ok: bool)
      requires NodeFits(states, indents, indent, flowLevel) && head + 1 < |events| && event == events[head]
      requires event.SequenceStartEvent?
      modifies this`state, this`indention
      ensures ok && Here() && Read(Unfill(Frames(states)), event) == Some(Stack(state, states))
      ensures state ==
                if flowLevel > 0 || canonical || event.style.FlowStyle? || events[head + 1].SequenceEndEvent?
                then FlowSequenceFirstItemState else BlockSequenceFirstItemState
    {
      hide Frames, Unfill, InsideCount, FlowCount, IndentsFit, EmitFits, Read, Stack;
      Write();
      if flowLevel > 0 || canonical || event.style.FlowStyle? || CheckEmptySequence() {
        state := FlowSequenceFirstItemState;
      } else {
        state := BlockSequenceFirstItemState;
      }
      OpenFits(states, indents, indent, flowLevel, state, event);
      ok := true;
    }

    method EmitMappingStart(event: Event) returns (ok: bool)
      requires NodeFits(states, indents, indent, flowLevel) && head + 1 < |events| && event == events[head]
      requires event.MappingStartEvent?
      modifies this`state, this`indention
      ensures ok && Here() && Read(Unfill(Frames(states)), event) == Some(Stack(state, states))
      ensures state ==
                if flowLevel > 0 || canonical || event.style.FlowStyle? || events[head + 1].MappingEndEvent?
                then FlowMappingFirstKeyState else BlockMappingFirstKeyState
    {
      hide Frames, Unfill, InsideCount, FlowCount, IndentsFit, EmitFits, Read, Stack;
      Write();
      if flowLevel > 0 || canonical || event.style.FlowStyle? || CheckEmptyMapping() {
        state := FlowMappingFirstKeyState;
      } else {
        state := BlockMappingFirstKeyState;
      }
      OpenFits(states, indents, indent, flowLevel, state, event);
      ok := true;
    }

    // ---------------------------------------------------------------- documents

    method EmitStreamStart(event: Event) returns (ok: bool)
      requires state.StreamStartState? && Here() && !error
      modifies this`state, this`bestIndent, this`indent, this`indention, this`error
      ensures ok == !error == event.StreamStartEvent?
      ensures ok ==> Here() && state == FirstDocumentStartState && states == [] && 2 <= bestIndent <= 9
    {
      if !event.StreamStartEvent? {
        ok := SetError();
        return;
      }
      if bestIndent < 2 || bestIndent > 9 {
        bestIndent := 2;
      }
      indent := -1;
      Write();
      state := FirstDocumentStartState;
      ok := true;
    }

    method AppendTagDirective(d: TagDirective, allowDuplicates: bool) returns (ok: bool)
      requires !error
      modifies this`tagDirectives, this`error
      ensures var declared := Declared(old(tagDirectives), d.handle);
              && ok == !error == (!declared || allowDuplicates)
              && tagDirectives == if declared then old(tagDirectives) else old(tagDirectives) + [d]
    {
      for i := 0 to |tagDirectives|
        invariant tagDirectives == old(tagDirectives) && !error
        invariant forall j :: 0 <= j < i ==> tagDirectives[j].handle != d.handle
      {
        if tagDirectives[i].handle == d.handle {
          if allowDuplicates {
            return true;
          }
          ok := SetError();
          return;
        }
      }
      tagDirectives := tagDirectives + [d];
      ok := true;
    }

    /** The directives of a document: each one valid and no handle twice; then the defaults. */
    method AppendDirectives(ds: seq<TagDirective>) returns (ok: bool)
      requires tagDirectives == [] && !error
      modifies this`tagDirectives, this`error
      ensures ok == !error == DirectivesFit(ds)
      ensures ok ==> tagDirectives == WithDefaults(ds)
    {
      hide DirectiveFits, DirectivesFit, Declared;
      NoneFit();
      for i := 0 to |ds|
        invariant !error && DirectivesFit(ds[..i]) && tagDirectives == ds[..i]
      {
        OneMoreFits(ds, i);
        if !DirectiveFits(ds[i]) {
          ok := SetError();
          return;
        }
        ok := AppendTagDirective(ds[i], false);
        if !ok {
          return;
        }
        assert ds[..i + 1] == ds[..i] + [ds[i]];
      }
      assert ds[..|ds|] == ds;
      ok := AppendTagDirective(DefaultDirectives[0], true);
      ok := AppendTagDirective(DefaultDirectives[1], true);
    }

    method EmitDocumentStart(event: Event, first: bool) returns (ok: bool)
      requires Here() && !error && states == [] && (state.FirstDocumentStartState? || state.DocumentStartState?)
      requires tagDirectives == []
      modifies this`state, this`indention, this`error, this`tagDirectives
      ensures ok && event.DocumentStartEvent? ==> tagDirectives == WithDefaults(event.tags)
      ensures ok == !error == ((event.DocumentStartEvent? || event.StreamEndEvent?) && Emittable(event))
      ensures ok ==> Here() && !AwaitsDocument(state) && Read([InStream], event) == Some(Stack(state, states))
    {
      if event.DocumentStartEvent? {
        ok := AppendDirectives(event.tags);
        if !ok {
          return;
        }
        Write();
        state := DocumentContentState;
      } else if event.StreamEndEvent? {
        Write();
        state := EndState;
        ok := true;
      } else {
        ok := SetError();
      }
      BetweenReads();
    }

    method EmitDocumentContent(event: Event) returns (ok: bool)
      requires Here() && !error && states == [] && state.DocumentContentState? && 2 <= bestIndent
      requires head < |events| && event == events[head] && Waiting()
      modifies this`state, this`states, this`indents, this`indent, this`mappingContext, this`simpleKeyContext,
        this`indention, this`error
      ensures ok == !error == (Read([InStream, InDocument(false)], event).Some? && Emittable(event))
      ensures ok ==> Here() && Read([InStream, InDocument(false)], event) == Some(Stack(state, states))
    {
      hide Read, Stack, EmitFits, NodeFits, Frames, Unfill;
      RootFits(indents, indent, flowLevel);
      states := states + [DocumentEndState];
      if !IsLeaf(event) && !event.SequenceStartEvent? && !event.MappingStartEvent? {
        NotANode([InStream, InDocument(false)], event);
      }
      ok := EmitNode(event, true, false, false, false);
    }

    method EmitDocumentEnd(event: Event) returns (ok: bool)
      requires Here() && !error && states == [] && state.DocumentEndState?
      modifies this`state, this`indention, this`error, this`tagDirectives
      ensures ok == !error == event.DocumentEndEvent?
      ensures ok ==>
                tagDirectives == [] && Here() &&
                Read(Stack(DocumentEndState, states), event) == Some(Stack(state, states))
    {
      if !event.DocumentEndEvent? {
        ok := SetError();
        return;
      }
      Write();
      state := DocumentStartState;
      tagDirectives := [];
      ok := true;
      BetweenReads();
    }

    // ---------------------------------------------------------------- collections

    /** The end of a collection: the indent before it and the state on top come back. */
    method Leave()
      requires states != [] && indents != []
      modifies this`state, this`states, this`indents, this`indent
      ensures state == Last(old(states)) && states == Init(old(states))
      ensures indent == Last(old(indents)) && indents == Init(old(indents))
    {
      PopIndent();
      PopState();
    }

    /** Goes into the collection: one more indent, and one more level in a flow collection. */
    method Enter(own: State, flow: bool, indentless: bool)
      requires Here() && IsFirst(state) && IsInside(own) && Innermost(own) == Innermost(state) &&
               IsFlow(own) == OpensFlow(state) == flow
      requires 2 <= bestIndent
      modifies this`indents, this`indent, this`flowLevel
      ensures InFits(own, states, indents, indent, flowLevel)
      ensures Stack(state, states) == Frames(states) + [Innermost(own)]
      ensures indents == old(indents) + [old(indent)]
      ensures indent == if old(indent) < 0 then (if flow then bestIndent else 0)
                        else if indentless then old(indent) else old(indent) + bestIndent
    {
      hide Frames, InsideCount, FlowCount, IndentsFit, EmitFits, Stack, InFits;
      ghost var ins, ind, level := indents, indent, flowLevel;
      IncreaseIndent(flow, indentless);
      if flow {
        flowLevel := flowLevel + 1;
      }
      EnterFits(state, own, states, ins, ind, level, indent);
    }

    /** A node of the collection: its next state is pushed first. */
    method PushNode(event: Event, ghost own: State, next: State, sequence: bool, mapping: bool, simpleKey: bool)
        returns (ok: bool)
      requires InFits(own, states, indents, indent, flowLevel) && !error && 2 <= bestIndent
      requires IsInside(next) && IsFlow(next) == IsFlow(own)
      requires Awaits(Innermost(own)) && Innermost(next) == Filled(Innermost(own))
      requires head < |events| && event == events[head] && Waiting()
      requires !(event.SequenceEndEvent? && Innermost(own) == InSequence) &&
               !(event.MappingEndEvent? && Innermost(own) == AtKey)
      modifies this`state, this`states, this`indents, this`indent, this`mappingContext, this`simpleKeyContext,
        this`indention, this`error
      ensures ok == !error == (Read(Frames(old(states)) + [Innermost(own)], event).Some? && Emittable(event))
      ensures ok ==> Here() && Read(Frames(old(states)) + [Innermost(own)], event) == Some(Stack(state, states))
      ensures ok ==> Moved(old(states), event, next) && indents == old(indents) && indent == old(indent)
      ensures ok ==> !event.SequenceEndEvent? && !event.MappingEndEvent?
    {
      hide Frames, Unfill, InsideCount, FlowCount, IndentsFit, EmitFits, Read, Stack, InFits, InsideDocument;
      PushFits(own, next, states, indents, indent, flowLevel);
      if !IsLeaf(event) && !event.SequenceStartEvent? && !event.MappingStartEvent? {
        NotANode(Frames(states) + [Innermost(own)], event);
      }
      states := states + [next];
      ok := EmitNode(event, false, sequence, mapping, simpleKey);
    }

    /** The end of the collection, whose state is `own`. */
    method Close(ghost own: State, event: Event) returns (ok: bool)
      requires InFits(own, states, indents, indent, flowLevel + One(IsFlow(own)))
      requires (event.SequenceEndEvent? && Innermost(own) == InSequence) ||
               (event.MappingEndEvent? && Innermost(own) == AtKey)
      modifies this`state, this`states, this`indents, this`indent
      ensures ok && Here() && Read(Frames(old(states)) + [Innermost(own)], event) == Some(Stack(state, states))
      ensures forall next :: Moved(old(states), event, next)
      ensures indents + [indent] == old(indents)
    {
      hide Frames, InsideCount, FlowCount, EmitFits, Read, Stack;
      CloseFits(own, states, indents, indent, flowLevel + One(IsFlow(own)), event);
      Leave();
      ok := true;
    }

    method EmitFlowSequenceItem(event: Event, first: bool) returns (ok: bool)
      requires state == if first then FlowSequenceFirstItemState else FlowSequenceItemState
      requires Here() && !error && 2 <= bestIndent && head < |events| && event == events[head] && Waiting()
      modifies this`state, this`states, this`indents, this`indent, this`flowLevel, this`mappingContext,
        this`simpleKeyContext, this`indention, this`error
      ensures ok == !error == (Read(old(Stack(state, states)), event).Some? && Emittable(event))
      ensures ok ==> Here() && Read(old(Stack(state, states)), event) == Some(Stack(state, states))
      ensures ok ==> Moved(old(states), event, FlowSequenceItemState)
      ensures ok ==> Indented(old(Indents()), if old(indent) < 0 then bestIndent else old(indent) + bestIndent,
                              event, first)
    {
      hide Frames, Unfill, InsideCount, FlowCount, IndentsFit, EmitFits, Read, Stack, InsideDocument, Moved;
      ghost var own := FlowSequenceItemState;
      InitBehind(indents, indent);
      if first {
        Write();
        Enter(FlowSequenceItemState, true, false);
        InitBehind(indents, indent);
      } else {
        InsideFits(state, states, indents, indent, flowLevel);
      }
      if event.SequenceEndEvent? {
        flowLevel := flowLevel - 1;
        ok := Close(own, event);
        Write();
        return;
      }
      Write();
      ok := PushNode(event, own, FlowSequenceItemState, true, false, false);
    }

    method EmitFlowMappingKey(event: Event, first: bool) returns (ok: bool)
      requires state == if first then FlowMappingFirstKeyState else FlowMappingKeyState
      requires Here() && !error && 2 <= bestIndent && head < |events| && event == events[head] && Waiting()
      modifies this`state, this`states, this`indents, this`indent, this`flowLevel, this`mappingContext,
        this`simpleKeyContext, this`indention, this`error
      ensures ok == !error == (Read(old(Stack(state, states)), event).Some? && Emittable(event))
      ensures ok ==> Here() && Read(old(Stack(state, states)), event) == Some(Stack(state, states))
      ensures ok ==> Moved(old(states), event,
                         if !canonical && CheckSimpleKey() then FlowMappingSimpleValueState else FlowMappingValueState)
      ensures ok ==> Indented(old(Indents()), if old(indent) < 0 then bestIndent else old(indent) + bestIndent,
                              event, first)
    {
      hide Frames, Unfill, InsideCount, FlowCount, IndentsFit, EmitFits, Read, Stack, InsideDocument, Moved;
      ghost var own := FlowMappingKeyState;
      InitBehind(indents, indent);
      if first {
        Write();
        Enter(FlowMappingKeyState, true, false);
        InitBehind(indents, indent);
      } else {
        InsideFits(state, states, indents, indent, flowLevel);
      }
      if event.MappingEndEvent? {
        flowLevel := flowLevel - 1;
        ok := Close(own, event);
        Write();
        return;
      }
      Write();
      if !canonical && CheckSimpleKey() {
        ok := PushNode(event, own, FlowMappingSimpleValueState, false, true, true);
      } else {
        Write();
        ok := PushNode(event, own, FlowMappingValueState, false, true, false);
      }
    }

    method EmitFlowMappingValue(event: Event, simple: bool) returns (ok: bool)
      requires state == if simple then FlowMappingSimpleValueState else FlowMappingValueState
      requires Here() && !error && 2 <= bestIndent && head < |events| && event == events[head] && Waiting()
      modifies this`state, this`states, this`indents, this`indent, this`flowLevel, this`mappingContext,
        this`simpleKeyContext, this`indention, this`error
      ensures ok == !error == (Read(old(Stack(state, states)), event).Some? && Emittable(event))
      ensures ok ==> Here() && Read(old(Stack(state, states)), event) == Some(Stack(state, states))
      ensures ok ==> Moved(old(states), event, FlowMappingKeyState) && Indents() == old(Indents())
    {
      hide Frames, Unfill, InsideCount, FlowCount, IndentsFit, EmitFits, Read, Stack, InsideDocument, Moved;
      ghost var own := state;
      InsideFits(state, states, indents, indent, flowLevel);
      Write();
      ok := PushNode(event, own, FlowMappingKeyState, false, true, false);
    }

    method EmitBlockSequenceItem(event: Event, first: bool) returns (ok: bool)
      requires state == if first then BlockSequenceFirstItemState else BlockSequenceItemState
      requires Here() && !error && 2 <= bestIndent && head < |events| && event == events[head] && Waiting()
      modifies this`state, this`states, this`indents, this`indent, this`flowLevel, this`mappingContext,
        this`simpleKeyContext, this`indention, this`error
      ensures ok == !error == (Read(old(Stack(state, states)), event).Some? && Emittable(event))
      ensures ok ==> Here() && Read(old(Stack(state, states)), event) == Some(Stack(state, states))
      ensures ok ==> Moved(old(states), event, BlockSequenceItemState)
      ensures ok ==> Indented(old(Indents()), if old(indent) < 0 then 0
                                            else if old(mappingContext && !indention) then old(indent)
                                            else old(indent) + bestIndent, event, first)
    {
      hide Frames, Unfill, InsideCount, FlowCount, IndentsFit, EmitFits, Read, Stack, InsideDocument, Moved;
      ghost var own := BlockSequenceItemState;
      InitBehind(indents, indent);
      if first {
        Enter(BlockSequenceItemState, false, mappingContext && !indention);
        InitBehind(indents, indent);
      } else {
        InsideFits(state, states, indents, indent, flowLevel);
      }
      if event.SequenceEndEvent? {
        ok := Close(own, event);
        return;
      }
      Write();
      ok := PushNode(event, own, BlockSequenceItemState, true, false, false);
    }

    method EmitBlockMappingKey(event: Event, first: bool) returns (ok: bool)
      requires state == if first then BlockMappingFirstKeyState else BlockMappingKeyState
      requires Here() && !error && 2 <= bestIndent && head < |events| && event == events[head] && Waiting()
      modifies this`state, this`states, this`indents, this`indent, this`flowLevel, this`mappingContext,
        this`simpleKeyContext, this`indention, this`error
      ensures ok == !error == (Read(old(Stack(state, states)), event).Some? && Emittable(event))
      ensures ok ==> Here() && Read(old(Stack(state, states)), event) == Some(Stack(state, states))
      ensures ok ==> Moved(old(states), event,
                         if CheckSimpleKey() then BlockMappingSimpleValueState else BlockMappingValueState)
      ensures ok ==> Indented(old(Indents()), if old(indent) < 0 then 0 else old(indent) + bestIndent, event, first)
    {
      hide Frames, Unfill, InsideCount, FlowCount, IndentsFit, EmitFits, Read, Stack, InsideDocument, Moved;
      ghost var own := BlockMappingKeyState;
      InitBehind(indents, indent);
      if first {
        Enter(BlockMappingKeyState, false, false);
        InitBehind(indents, indent);
      } else {
        InsideFits(state, states, indents, indent, flowLevel);
      }
      if event.MappingEndEvent? {
        ok := Close(own, event);
        return;
      }
      Write();
      if CheckSimpleKey() {
        ok := PushNode(event, own, BlockMappingSimpleValueState, false, true, true);
      } else {
        Write();
        ok := PushNode(event, own, BlockMappingValueState, false, true, false);
      }
    }

    method EmitBlockMappingValue(event: Event, simple: bool) returns (ok: bool)
      requires state == if simple then BlockMappingSimpleValueState else BlockMappingValueState
      requires Here() && !error && 2 <= bestIndent && head < |events| && event == events[head] && Waiting()
      modifies this`state, this`states, this`indents, this`indent, this`flowLevel, this`mappingContext,
        this`simpleKeyContext, this`indention, this`error
      ensures ok == !error == (Read(old(Stack(state, states)), event).Some? && Emittable(event))
      ensures ok ==> Here() && Read(old(Stack(state, states)), event) == Some(Stack(state, states))
      ensures ok ==> Moved(old(states), event, BlockMappingKeyState) && Indents() == old(Indents())
    {
      hide Frames, Unfill, InsideCount, FlowCount, IndentsFit, EmitFits, Read, Stack, InsideDocument, Moved;
      ghost var own := state;
      InsideFits(state, states, indents, indent, flowLevel);
      Write();
      ok := PushNode(event, own, BlockMappingKeyState, false, true, false);
    }

    // ---------------------------------------------------------------- the dispatcher

    /** The step for the event at the head: an error exactly if the grammar does not allow the event here. */
    method StateMachine(event: Event) returns (ok: bool)
      requires Sound() && head < |events| && event == events[head] && Waiting()
      modifies this`state, this`states, this`indents, this`indent, this`flowLevel, this`mappingContext,
        this`simpleKeyContext, this`indention, this`error, this`bestIndent, this`tagDirectives
      ensures ok == !error == (Read(old(Stack(state, states)), event).Some? && Emittable(event))
      ensures ok ==> Here() && Read(old(Stack(state, states)), event) == Some(Stack(state, states))
      ensures ok ==>
                (state.StreamStartState? || 2 <= bestIndent <= 9) && (AwaitsDocument(state) ==> tagDirectives == [])
    {
      if BetweenNodes(state) {
        ok := DocumentStep(event);
      } else {
        ok := CollectionStep(event);
      }
    }

    method DocumentStep(event: Event) returns (ok: bool)
      requires Here() && !error && head < |events| && event == events[head] && Waiting()
      requires BetweenNodes(state) && (state.StreamStartState? || 2 <= bestIndent <= 9)
      requires AwaitsDocument(state) ==> tagDirectives == []
      modifies this`state, this`states, this`indents, this`indent, this`flowLevel, this`mappingContext,
        this`simpleKeyContext, this`indention, this`error, this`bestIndent, this`tagDirectives
      ensures ok == !error == (Read(old(Stack(state, states)), event).Some? && Emittable(event))
      ensures ok ==> Here() && Read(old(Stack(state, states)), event) == Some(Stack(state, states))
      ensures ok ==> 2 <= bestIndent <= 9 && (AwaitsDocument(state) ==> tagDirectives == [])
    {
      OutsideReads(event);
      ghost var content := state == DocumentContentState;
      match state {
        case StreamStartState => ok := EmitStreamStart(event);
        case FirstDocumentStartState => ok := EmitDocumentStart(event, true);
        case DocumentStartState => ok := EmitDocumentStart(event, false);
        case DocumentContentState => ok := EmitDocumentContent(event);
        case DocumentEndState => ok := EmitDocumentEnd(event);
        case EndState => ok := SetError();
      }
      if ok && content { StaysInside([InStream, InDocument(false)], event, state, states); }
    }

    method CollectionStep(event: Event) returns (ok: bool)
      requires Here() && !error && head < |events| && event == events[head] && Waiting()
      requires !BetweenNodes(state) && 2 <= bestIndent
      modifies this`state, this`states, this`indents, this`indent, this`flowLevel, this`mappingContext,
        this`simpleKeyContext, this`indention, this`error
      ensures ok == !error == (Read(old(Stack(state, states)), event).Some? && Emittable(event))
      ensures ok ==> Here() && Read(old(Stack(state, states)), event) == Some(Stack(state, states))
      ensures ok ==> !AwaitsDocument(state)
    {
      hide Stack, Read, EmitFits, Emittable;
      ghost var stack := Stack(state, states);
      CollectionStack(state, states, indents, indent, flowLevel);
      match state {
        case FlowSequenceFirstItemState => ok := EmitFlowSequenceItem(event, true);
        case FlowSequenceItemState => ok := EmitFlowSequenceItem(event, false);
        case FlowMappingFirstKeyState => ok := EmitFlowMappingKey(event, true);
        case FlowMappingKeyState => ok := EmitFlowMappingKey(event, false);
        case FlowMappingSimpleValueState => ok := EmitFlowMappingValue(event, true);
        case FlowMappingValueState => ok := EmitFlowMappingValue(event, false);
        case BlockSequenceFirstItemState => ok := EmitBlockSequenceItem(event, true);
        case BlockSequenceItemState => ok := EmitBlockSequenceItem(event, false);
        case BlockMappingFirstKeyState => ok := EmitBlockMappingKey(event, true);
        case BlockMappingKeyState => ok := EmitBlockMappingKey(event, false);
        case BlockMappingSimpleValueState => ok := EmitBlockMappingValue(event, true);
        case BlockMappingValueState => ok := EmitBlockMappingValue(event, false);
      }
      if ok { StaysInside(stack, event, state, states); }
    }

    /** need_more_events: a beginning waits for the events behind it, unless it has been closed already. */
    method NeedMoreEvents() returns (more: bool)
      requires head <= |events|
      ensures more == NeedMore(Queue())
    {
      if head == |events| {
        return true;
      }
      assert Queue()[0] == events[head];
      var accumulate := Accumulate(events[head]);
      if accumulate == 0 {
        return false;
      }
      if |events| - head > accumulate {
        return false;
      }
      var level := 0;
      for i := head to |events|
        invariant level == Levels(Queue()[..i - head])
        invariant forall k :: 1 <= k <= i - head ==> Levels(Queue()[..k]) != 0
      {
        LevelsStep(Queue(), i - head);
        level := level + Level(events[i]);
        if level == 0 {
          return false;
        }
      }
      more := true;
    }

    /**
     emit: the event is queued, and whatever can be is emitted.  As long as the events begin a stream there is no
     error, and no stack is popped empty; when the stream is complete, nothing is left in the queue and on the stacks.
     */
    method Emit(event: Event) returns (ok: bool)
      requires Valid()
      modifies this
      ensures ok == !error
      ensures ok ==> Valid() && Fed() == old(Fed()) + [event]
      ensures IsStreamPrefix(old(Fed()) + [event]) && AllFit(old(Fed()) + [event]) ==> ok
      ensures ok && IsStream(Fed()) ==>
                Queue() == [] && state.EndState? && states == [] && indents == [] && flowLevel == 0
    {
      hide EmitFits, Stack, NeedMore, IsStream, IsStreamPrefix, AllFit, ReadAll, Read;
      ghost var fed := Fed() + [event];
      events := events + [event];
      assert Queue() == old(Queue()) + [event];
      var more := NeedMoreEvents();
      while !more
        invariant Sound() && Fed() == fed && more == NeedMore(Queue())
        decreases |events| - head
      {
        ok := EmitHead();
        if !ok {
          return;
        }
        more := NeedMoreEvents();
      }
      ok := true;
      AtTheEnd();
    }

    /** analyze_event: an alias or anchor must consist of letters and digits. */
    method AnalyzeEvent(event: Event) returns (ok: bool)
      requires !error
      modifies this`error
      ensures ok == !error == AnchorFits(event)
    {
      ok := AnchorFits(event);
      error := !ok;
    }

    /** One turn: the head is emitted and leaves the queue. */
    method EmitHead() returns (ok: bool)
      requires Sound() && !NeedMore(Queue())
      modifies this
      ensures ok == !error && events == old(events)
      ensures ok ==> Sound() && head == old(head) + 1 && Fed() == old(Fed())
      ensures IsStreamPrefix(old(Fed())) && AllFit(old(Fed())) ==> ok
    {
      hide EmitFits, Stack, IsStreamPrefix, Emittable, AnchorFits, ReadAll, Read;
      ghost var q := Queue();
      HeadWaits();
      var event := events[head];
      assert Fed()[|done|] == event;
      NextIsRead(done, q, Stack(state, states));
      ok := AnalyzeEvent(event);
      if !ok {
        return;
      }
      ok := StateMachine(event);
      if !ok {
        return;
      }
      done := done + [event];
      head := head + 1;
      assert Queue() == q[1..];
    }

    lemma HeadWaits()
      requires head <= |events| && !NeedMore(Queue())
      ensures head < |events| && Waiting() && Queue()[0] == events[head]
    {
      if Queue()[0].SequenceStartEvent? || Queue()[0].MappingStartEvent? { NextIsWaiting(Queue()); }
    }

    lemma AtTheEnd()
      requires Valid()
      ensures IsStream(Fed()) ==> Queue() == [] && state.EndState? && states == [] && indents == [] && flowLevel == 0
    {
      hide EmitFits, Stack, NeedMore, IsStream, AllFit, ReadAll, Read, Reachable;
      AcceptedIffStream(Fed());
      if IsStream(Fed()) {
        var stack := Stack(state, states);
        ReadAllConcat([BeforeStream], done, Queue());
        BeginIsReachable();
        ReadAllKeepsReachable([BeforeStream], done);
        if Queue() != [] {
          NothingWaits(stack, Queue());
        }
        assert done + [] == done;
        OutsideIsClean(state, states, indents, indent, flowLevel);
      }
    }

    /** After the end of a document nothing is left over. */
    lemma AfterDocumentEnd()
      requires Sound() && done != [] && Last(done).DocumentEndEvent?
      ensures states == [] && indents == [] && flowLevel == 0 && indent == -1
    {
      hide EmitFits, Stack, ReadAll;
      DocumentEndReads(done);
      OutsideIsClean(state, states, indents, indent, flowLevel);
    }
  }

  lemma NoneFit()
    ensures DirectivesFit([])
  {
  }

  lemma OneMoreFits(ds: seq<TagDirective>, i: nat)
    requires i < |ds| && DirectivesFit(ds[..i])
    ensures DirectivesFit(ds[..i + 1]) <==> DirectiveFits(ds[i]) && !Declared(ds[..i], ds[i].handle)
    ensures DirectivesFit(ds) ==> DirectivesFit(ds[..i + 1])
  {
    hide DirectiveFits;
    var more := ds[..i + 1];
    assert more[..i] == ds[..i] && more[i] == ds[i];
    if Declared(ds[..i], ds[i].handle) {
      var k :| 0 <= k < i && ds[..i][k].handle == ds[i].handle;
      assert more[k].handle == more[i].handle;
    }
    forall k | 0 <= k < i ensures ds[..i][k] in ds[..i] && more[k] == ds[..i][k] {
    }
  }

  lemma BetweenReads()
    ensures Read([InStream], StreamEndEvent) == Some([AfterStream])
    ensures forall e: Event :: e.DocumentStartEvent? ==> Read([InStream], e) == Some([InStream, InDocument(false)])
    ensures Stack(DocumentEndState, []) == [InStream, InDocument(true)]
    ensures forall e: Event :: e.DocumentEndEvent? ==> Read([InStream, InDocument(true)], e) == Some([InStream])
  {
    assert Init([InStream]) + [AfterStream] == [AfterStream];
    assert [InStream] + [InDocument(false)] == [InStream, InDocument(false)];
    assert Init([InStream, InDocument(true)]) == [InStream];
  }

  lemma RootFits(indents: seq<int>, indent: int, flowLevel: int)
    requires EmitFits(DocumentContentState, [], indents, indent, flowLevel)
    ensures NodeFits([] + [DocumentEndState], indents, indent, flowLevel)
    ensures Unfill(Frames([] + [DocumentEndState])) == [InStream, InDocument(false)]
  {
    var states := [DocumentEndState];
    assert Init(states) == [] && [] + [DocumentEndState] == states;
    assert Frames(states) == [InStream, InDocument(true)];
    assert Init([InStream, InDocument(true)]) == [InStream];
  }

  lemma OutsideReads(e: Event)
    ensures Read([BeforeStream], e) == (if e.StreamStartEvent? then Some([InStream]) else None)
    ensures Read([InStream], e).Some? <==> e.DocumentStartEvent? || e.StreamEndEvent?
    ensures Read([InStream, InDocument(true)], e).Some? <==> e.DocumentEndEvent?
    ensures Read([AfterStream], e) == None
    ensures Stack(DocumentEndState, []) == [InStream, InDocument(true)]
  {
    assert Init([BeforeStream]) + [InStream] == [InStream];
    assert Frames([]) == [InStream];
  }

  lemma LevelsStep(q: seq<Event>, k: nat)
    requires k < |q|
    ensures Levels(q[..k + 1]) == Levels(q[..k]) + Level(q[k])
  {
    assert q[..k + 1][..k] == q[..k];
  }

  lemma BeginIsReachable()
    ensures Reachable([BeforeStream])
  {
  }
}
