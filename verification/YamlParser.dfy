/**
 The parser in place: an object whose productions rewrite the state, the stacks and the position one after the
 other.  Each is proved to be the step of YamlParse, and so every trace of events begins a stream.
 */
module YamlParser {
  import opened Common
  import opened YamlEvents
  import opened YamlParse
  import opened YamlParseSafety

  class Parser {
    const tokens: seq<Token>
    var pos: nat
    var ended: bool
    var state: State
    var states: seq<State>
    var marks: seq<nat>
    var directives: seq<TagDirective>
    var error: Error

    ghost var events: seq<Event>   // everything produced so far

    function Value(): Machine
      reads this
    {
      Machine(tokens, pos, ended, state, states, marks, directives, error)
    }

    ghost predicate Valid()
      reads this
    {
      RunFits(Run(Value(), events))
    }

    constructor (tokens: seq<Token>)
      ensures Value() == Begin(tokens) && events == [] && Valid()
    {
      this.tokens := tokens;
      pos, ended, error := 0, false, NoError;
      state, states, marks, directives := StreamStartState, [], [], [];
      events := [];
      new;
      BeginFits(tokens);
    }

    // ---------------------------------------------------------------- tokens and stacks

    /** peek_token; behind the last token the scanner fails. */
    method PeekToken() returns (t: Option<Token>)
      modifies this`error
      ensures t == Peek(old(Value()))
      ensures Value() == if t.Some? then old(Value()) else NoToken(old(Value())).m
    {
      if pos < |tokens| {
        t := Some(tokens[pos]);
      } else {
        t := None;
        if error != Panic {
          error := ScannerError;
        }
      }
    }

    method SkipToken()
      requires pos < |tokens|
      modifies this`pos, this`ended
      ensures Value() == Skip(old(Value()))
    {
      ended := tokens[pos].StreamEndToken?;
      pos := pos + 1;
    }

    method Pop()
      requires states != []
      modifies this`state, this`states
      ensures Value() == PopState(old(Value()))
    {
      state := states[|states| - 1];
      states := states[..|states| - 1];
    }

    method DropMark()
      requires marks != []
      modifies this`marks
      ensures Value() == PopMark(old(Value()))
    {
      marks := marks[..|marks| - 1];
    }

    method SetError()
      requires error == NoError
      modifies this`error
      ensures Value() == Fail(old(Value())).m
    {
      error := ParserError;
    }

    /** The opening token of a collection, seen in the step before. */
    method OpenCollection()
      requires pos < |tokens|
      modifies this`marks, this`pos, this`ended
      ensures Value() == Open(old(Value()))
    {
      marks := marks + [pos];
      SkipToken();
    }

    // ---------------------------------------------------------------- documents

    method ParseStreamStart() returns (event: Option<Event>)
      requires error == NoError
      modifies this`pos, this`ended, this`state, this`error
      ensures Outcome(Value(), event) == YamlParse.ParseStreamStart(old(Value()))
    {
      event := None;
      var token := PeekToken();
      if token.None? {
        return;
      }
      if !token.value.StreamStartToken? {
        SetError();
        return;
      }
      state := ImplicitDocumentStartState;
      event := Some(StreamStartEvent);
      SkipToken();
    }

    method SkipExtraDocumentEnds() returns (token: Option<Token>)
      requires error == NoError
      modifies this`pos, this`ended, this`error
      ensures var m := SkipDocumentEnds(old(Value()));
              token == Peek(m) && Value() == if token.Some? then m else NoToken(m).m
    {
      token := PeekToken();
      while token == Some(DocumentEndToken)
        invariant token == Peek(Value()) || (token.None? && error == ScannerError)
        invariant token.Some? ==> error == NoError
        invariant SkipDocumentEnds(old(Value())) ==
                  if token.Some? then SkipDocumentEnds(Value()) else Value().(error := NoError)
        invariant token.None? ==> Peek(Value()).None? && error == ScannerError
        decreases |tokens| - pos
      {
        SkipToken();
        token := PeekToken();
      }
    }

    method ParseDocumentStart(implicit: bool) returns (event: Option<Event>)
      requires error == NoError
      modifies this
      ensures Outcome(Value(), event) == YamlParse.ParseDocumentStart(old(Value()), implicit) && events == old(events)
    {
      hide ImplicitDocument, ExplicitDocument, SkipDocumentEnds;
      event := None;
      var token;
      if implicit {
        token := PeekToken();
      } else {
        token := SkipExtraDocumentEnds();
      }
      if token.None? {
        return;
      }
      if implicit && !StartsDocument(token.value) && !token.value.StreamEndToken? {
        event := ParseImplicitDocument();
      } else if !token.value.StreamEndToken? {
        event := ParseExplicitDocument();
      } else {
        state := EndState;
        event := Some(StreamEndEvent);
        SkipToken();
      }
    }

    method ParseImplicitDocument() returns (event: Option<Event>)
      requires error == NoError
      modifies this
      ensures Outcome(Value(), event) == ImplicitDocument(old(Value())) && events == old(events)
    {
      hide YamlParse.ProcessDirectives;
      event := None;
      var ok, version, tags := ProcessDirectives();
      if !ok {
        return;
      }
      states := states + [DocumentEndState];
      state := BlockNodeState;
      event := Some(DocumentStartEvent(false, [], false));
    }

    method ParseExplicitDocument() returns (event: Option<Event>)
      requires error == NoError
      modifies this
      ensures Outcome(Value(), event) == ExplicitDocument(old(Value())) && events == old(events)
    {
      hide YamlParse.ProcessDirectives;
      event := None;
      var ok, version, tags := ProcessDirectives();
      if !ok {
        return;
      }
      var token := PeekToken();
      if token.None? {
        return;
      }
      if !token.value.DocumentStartToken? {
        SetError();
        return;
      }
      states := states + [DocumentEndState];
      state := DocumentContentState;
      event := Some(DocumentStartEvent(version, tags, false));
      SkipToken();
    }

    method ParseDocumentContent() returns (event: Option<Event>)
      requires NodeFits(Value())
      modifies this
      ensures Outcome(Value(), event) == YamlParse.ParseDocumentContent(old(Value())) && events == old(events)
    {
      hide YamlParse.ParseNode;
      event := None;
      var token := PeekToken();
      if token.None? {
        return;
      }
      if StartsDocument(token.value) || token.value.DocumentEndToken? || token.value.StreamEndToken? {
        Pop();
        event := Some(Blank);
      } else {
        event := ParseNode(true, false);
      }
    }

    method ParseDocumentEnd() returns (event: Option<Event>)
      requires error == NoError
      modifies this
      ensures Outcome(Value(), event) == YamlParse.ParseDocumentEnd(old(Value())) && events == old(events)
    {
      event := None;
      var token := PeekToken();
      if token.None? {
        return;
      }
      var implicit := true;
      if token.value.DocumentEndToken? {
        SkipToken();
        implicit := false;
      }
      directives := [];
      state := DocumentStartState;
      event := Some(DocumentEndEvent(implicit));
    }

    // ---------------------------------------------------------------- directives

    /** append_tag_directive: false is a duplicate that is not allowed. */
    method AppendTagDirective(d: TagDirective, allowDuplicates: bool) returns (ok: bool)
      requires error == NoError
      modifies this`directives, this`error
      ensures var declared := Declared(old(directives), d.handle);
              && ok == (!declared || allowDuplicates)
              && Value() == old(Value()).(directives := if declared then old(directives) else old(directives) + [d],
                                          error := if ok then NoError else ParserError)
    {
      for i := 0 to |directives|
        invariant directives == old(directives) && error == NoError
        invariant forall j :: 0 <= j < i ==> directives[j].handle != d.handle
      {
        if directives[i].handle == d.handle {
          if !allowDuplicates {
            SetError();
          }
          return allowDuplicates;
        }
      }
      directives := directives + [d];
      ok := true;
    }

    method ProcessDirectives() returns (ok: bool, version: bool, tags: seq<TagDirective>)
      requires error == NoError
      modifies this`pos, this`ended, this`directives, this`error
      ensures var d := YamlParse.ProcessDirectives(old(Value()), false, []);
              Value() == d.m && ok == (error == NoError) && (ok ==> version == d.version && tags == d.tags)
    {
      hide WithDefaults, Declared;
      ghost var all := YamlParse.ProcessDirectives(Value(), false, []);
      ok, version, tags := false, false, [];
      var token := PeekToken();
      if token.None? {
        return;
      }
      while token.value.VersionDirectiveToken? || token.value.TagDirectiveToken?
        invariant token == Peek(Value()) && token.Some? && error == NoError
        invariant all == YamlParse.ProcessDirectives(Value(), version, tags)
        decreases |tokens| - pos
      {
        if token.value.VersionDirectiveToken? {
          if version || token.value.major != 1 || token.value.minor != 1 {
            SetError();
            return;
          }
          version := true;
        } else {
          var d := token.value.directive;
          var added := AppendTagDirective(d, false);
          if !added {
            return;
          }
          tags := tags + [d];
        }
        SkipToken();
        token := PeekToken();
        if token.None? {
          return;
        }
      }
      AddDefaults();
      ok := true;
    }

    method AddDefaults()
      requires error == NoError
      modifies this`directives, this`error
      ensures Value() == old(Value()).(directives := WithDefaults(old(directives)))
    {
      var ok := AppendTagDirective(DefaultDirectives[0], true);
      ok := AppendTagDirective(DefaultDirectives[1], true);
    }

    // ---------------------------------------------------------------- nodes

    /** Anchor and tag in either order; then the token behind them, if there is one. */
    method ReadNodeProperties(first: Token) returns (token: Option<Token>, anchor: string,
                                                     tag: Option<(string, string)>)
      requires error == NoError && Peek(Value()) == Some(first)
      modifies this`pos, this`ended, this`error
      ensures var p := ReadProperties(old(Value()));
              && token == Peek(p.m) && Value() == (if token.Some? then p.m else NoToken(p.m).m)
              && anchor == p.anchor && tag == p.tag
    {
      hide NoToken, Skip;
      token, anchor, tag := Some(first), "", None;
      if first.AnchorToken? {
        anchor := first.name;
        SkipToken();
        token := PeekToken();
        if token.Some? && token.value.TagToken? {
          tag := Some((token.value.handle, token.value.suffix));
          SkipToken();
          token := PeekToken();
        }
      } else if first.TagToken? {
        tag := Some((first.handle, first.suffix));
        SkipToken();
        token := PeekToken();
        if token.Some? && token.value.AnchorToken? {
          anchor := token.value.name;
          SkipToken();
          token := PeekToken();
        }
      }
    }

    /** The full tag: an empty handle takes the suffix as it is, any other one must have been declared. */
    method ResolveTag(tag: Option<(string, string)>) returns (full: Option<string>)
      ensures full == Resolve(directives, tag)
    {
      if tag.None? {
        return Some("");
      }
      var (handle, suffix) := tag.value;
      if handle == "" {
        return Some(suffix);
      }
      var result := "";
      for i := 0 to |directives|
        invariant forall j :: 0 <= j < i ==> directives[j].handle != handle
        invariant result == "" && PrefixOf(directives, handle) == PrefixOf(directives[i..], handle)
      {
        assert directives[i..][0] == directives[i] && directives[i..][1..] == directives[i + 1..];
        if directives[i].handle == handle {
          result := directives[i].prefix + suffix;
          break;
        }
      }
      full := if result == "" then None else Some(result);
    }

    method ParseNode(block: bool, indentless: bool) returns (event: Option<Event>)
      requires NodeFits(Value())
      modifies this
      ensures Outcome(Value(), event) == YamlParse.ParseNode(old(Value()), block, indentless) && events == old(events)
    {
      hide YamlParse.ParseContent, ReadProperties, Resolve, MarkCount;
      event := None;
      var token := PeekToken();
      if token.None? {
        return;
      }
      if token.value.AliasToken? {
        Pop();
        event := Some(AliasEvent(token.value.name));
        SkipToken();
        return;
      }
      var anchor, props;
      token, anchor, props := ReadNodeProperties(token.value);
      if token.None? {
        return;
      }
      var tag := ResolveTag(props);
      if tag.None? {
        SetError();
        return;
      }
      event := ParseContent(token.value, anchor, tag.value, block, indentless);
    }

    method ParseContent(t: Token, anchor: string, tag: string, block: bool, indentless: bool)
        returns (event: Option<Event>)
      requires error == NoError && states != [] && Peek(Value()) == Some(t)
      modifies this`pos, this`ended, this`state, this`states, this`error
      ensures Outcome(Value(), event) == YamlParse.ParseContent(old(Value()), t, anchor, tag, block, indentless)
    {
      event := None;
      var implicit := tag == "";
      if indentless && t.BlockEntryToken? {
        state := IndentlessSequenceEntryState;
        event := Some(SequenceStartEvent(anchor, tag, implicit, BlockStyle));
      } else if t.ScalarToken? {
        event := ParseScalar(t, anchor, tag);
      } else if t.FlowSequenceStartToken? {
        state := FlowSequenceFirstEntryState;
        event := Some(SequenceStartEvent(anchor, tag, implicit, FlowStyle));
      } else if t.FlowMappingStartToken? {
        state := FlowMappingFirstKeyState;
        event := Some(MappingStartEvent(anchor, tag, implicit, FlowStyle));
      } else if block && t.BlockSequenceStartToken? {
        state := BlockSequenceFirstEntryState;
        event := Some(SequenceStartEvent(anchor, tag, implicit, BlockStyle));
      } else if block && t.BlockMappingStartToken? {
        state := BlockMappingFirstKeyState;
        event := Some(MappingStartEvent(anchor, tag, implicit, BlockStyle));
      } else if |anchor| > 0 || |tag| > 0 {
        Pop();
        event := Some(ScalarEvent(anchor, tag, "", implicit, false, PlainStyle));
      } else {
        SetError();
      }
    }

    method ParseScalar(t: Token, anchor: string, tag: string) returns (event: Option<Event>)
      requires error == NoError && states != [] && t.ScalarToken? && Peek(Value()) == Some(t)
      modifies this`pos, this`ended, this`state, this`states
      ensures Outcome(Value(), event) == Emit(Skip(PopState(old(Value()))), ScalarOf(t, anchor, tag))
    {
      var plainImplicit, quotedImplicit := false, false;
      if (|tag| == 0 && t.style == PlainStyle) || (|tag| == 1 && tag[0] == '!') {
        plainImplicit := true;
      } else if |tag| == 0 {
        quotedImplicit := true;
      }
      Pop();
      event := Some(ScalarEvent(anchor, tag, t.value, plainImplicit, quotedImplicit, t.style));
      SkipToken();
    }

    // ---------------------------------------------------------------- collections

    /** The closing token: back to the state on top, and the collection's mark goes. */
    method Close(e: Event) returns (event: Option<Event>)
      requires error == NoError && states != [] && marks != [] && pos < |tokens|
      modifies this`pos, this`ended, this`state, this`states, this`marks
      ensures Outcome(Value(), event) == YamlParse.Close(old(Value()), e)
    {
      Pop();
      DropMark();
      event := Some(e);
      SkipToken();
    }

    method FailInCollection() returns (event: Option<Event>)
      requires error == NoError && marks != []
      modifies this`marks, this`error
      ensures Outcome(Value(), event) == Fail(PopMark(old(Value())))
    {
      DropMark();
      SetError();
      event := None;
    }

    /** The facts a production starts from: what it may pop is there. */
    lemma Entering(s: State)
      requires Fits(Value()) && CanEnter(state, s)
      ensures var m := Entered(Value());
              && CollectionFits(m, s) && m.error == error == NoError && m.states == states && states != []
              && (IsMarked(s) ==> m.marks != []) && (IsFirst(state) ==> pos < |tokens|)
    {
      hide Frames, MarkCount, Stack;
      EnterFits(Value(), s);
    }

    /** An indicator has been seen: skip it, then a node, or an empty scalar if the entry ends there. */
    method NodeBehind(ghost s: State, ends: Token -> bool, next: State, block: bool, indentless: bool)
        returns (event: Option<Event>)
      requires CollectionFits(Value(), s) && LeadsTo(s, next) && pos < |tokens| && !tokens[pos].StreamEndToken?
      modifies this
      ensures Outcome(Value(), event) == YamlParse.NodeBehind(old(Value()), ends, next, block, indentless)
      ensures events == old(events)
    {
      hide YamlParse.ParseNode, LeadsTo, MarkCount, InsideDocument;
      SkipFits(Value(), s);
      event := None;
      SkipToken();
      var token := PeekToken();
      if token.None? {
        return;
      }
      if ends(token.value) {
        state := next;
        event := Some(Blank);
      } else {
        PushFits(Value(), s, next);
        states := states + [next];
        event := ParseNode(block, indentless);
      }
    }

    /** A node in place of an entry. */
    method PushNode(ghost s: State, next: State, block: bool, indentless: bool) returns (event: Option<Event>)
      requires CollectionFits(Value(), s) && LeadsTo(s, next)
      modifies this
      ensures Outcome(Value(), event) == YamlParse.ParseNode(Push(old(Value()), next), block, indentless)
      ensures events == old(events)
    {
      hide YamlParse.ParseNode, LeadsTo, MarkCount, InsideDocument;
      PushFits(Value(), s, next);
      states := states + [next];
      event := ParseNode(block, indentless);
    }

    method ParseBlockSequenceEntry(first: bool) returns (event: Option<Event>)
      requires Fits(Value()) && state == if first then BlockSequenceFirstEntryState else BlockSequenceEntryState
      modifies this
      ensures Outcome(Value(), event) == YamlParse.ParseBlockSequenceEntry(old(Value()), first) && events == old(events)
    {
      hide Fits, Open, Skip, PopMark, Fail, YamlParse.NodeBehind, YamlParse.Close, CollectionFits, LeadsTo, CanEnter;
      ghost var s := BlockSequenceEntryState;
      Entrances();
      BlockTransitions();
      Entering(s);
      event := None;
      if first {
        OpenCollection();
      }
      var token := PeekToken();
      if token.None? {
        return;
      }
      if token.value.BlockEntryToken? {
        event := NodeBehind(s, EndsBlockItem, BlockSequenceEntryState, true, false);
      } else if token.value.BlockEndToken? {
        event := Close(SequenceEndEvent);
      } else {
        event := FailInCollection();
      }
    }

    method ParseIndentlessSequenceEntry() returns (event: Option<Event>)
      requires Fits(Value()) && state == IndentlessSequenceEntryState
      modifies this
      ensures Outcome(Value(), event) == YamlParse.ParseIndentlessSequenceEntry(old(Value())) && events == old(events)
    {
      hide Fits, Skip, YamlParse.NodeBehind, CollectionFits, LeadsTo, CanEnter;
      ghost var s := IndentlessSequenceEntryState;
      Entrances();
      BlockTransitions();
      Entering(s);
      event := None;
      var token := PeekToken();
      if token.None? {
        return;
      }
      if token.value.BlockEntryToken? {
        event := NodeBehind(s, EndsIndentlessItem, IndentlessSequenceEntryState, true, false);
      } else {
        Pop();
        event := Some(SequenceEndEvent);
      }
    }

    method ParseBlockMappingKey(first: bool) returns (event: Option<Event>)
      requires Fits(Value()) && state == if first then BlockMappingFirstKeyState else BlockMappingKeyState
      modifies this
      ensures Outcome(Value(), event) == YamlParse.ParseBlockMappingKey(old(Value()), first) && events == old(events)
    {
      hide Fits, Open, Skip, PopMark, Fail, YamlParse.NodeBehind, YamlParse.Close, CollectionFits, LeadsTo, CanEnter;
      ghost var s := BlockMappingKeyState;
      Entrances();
      BlockTransitions();
      Entering(s);
      event := None;
      if first {
        OpenCollection();
      }
      var token := PeekToken();
      if token.None? {
        return;
      }
      if token.value.KeyToken? {
        event := NodeBehind(s, EndsBlockPair, BlockMappingValueState, true, true);
      } else if token.value.BlockEndToken? {
        event := Close(MappingEndEvent);
      } else {
        event := FailInCollection();
      }
    }

    method ParseBlockMappingValue() returns (event: Option<Event>)
      requires Fits(Value()) && state == BlockMappingValueState
      modifies this
      ensures Outcome(Value(), event) == YamlParse.ParseBlockMappingValue(old(Value())) && events == old(events)
    {
      hide Fits, Skip, YamlParse.NodeBehind, CollectionFits, LeadsTo, CanEnter;
      ghost var s := BlockMappingValueState;
      Entrances();
      BlockTransitions();
      Entering(s);
      event := None;
      var token := PeekToken();
      if token.None? {
        return;
      }
      if token.value.ValueToken? {
        event := NodeBehind(s, EndsBlockPair, BlockMappingKeyState, true, true);
      } else {
        state := BlockMappingKeyState;
        event := Some(Blank);
      }
    }

    method ParseFlowSequenceEntry(first: bool) returns (event: Option<Event>)
      requires Fits(Value()) && state == if first then FlowSequenceFirstEntryState else FlowSequenceEntryState
      modifies this
      ensures Outcome(Value(), event) == YamlParse.ParseFlowSequenceEntry(old(Value()), first) && events == old(events)
    {
      hide Fits, Open, Skip, PopMark, Fail, FlowSequenceItem, YamlParse.Close, CollectionFits, LeadsTo, CanEnter;
      ghost var s := FlowSequenceEntryState;
      Entrances();
      Entering(s);
      event := None;
      if first {
        OpenCollection();
      }
      var token := PeekToken();
      if token.None? {
        return;
      }
      if token.value.FlowSequenceEndToken? {
        event := Close(SequenceEndEvent);
        return;
      }
      if !first {
        if !token.value.FlowEntryToken? {
          event := FailInCollection();
          return;
        }
        SkipComma(s);
        token := PeekToken();
        if token.None? {
          return;
        }
      }
      event := ParseFlowSequenceItem(token.value);
    }

    method SkipComma(ghost s: State)
      requires CollectionFits(Value(), s) && pos < |tokens| && tokens[pos].FlowEntryToken?
      modifies this`pos, this`ended
      ensures Value() == Skip(old(Value())) && CollectionFits(Value(), s)
    {
      hide CollectionFits;
      SkipFits(Value(), s);
      SkipToken();
    }

    method ParseFlowSequenceItem(t: Token) returns (event: Option<Event>)
      requires CollectionFits(Value(), FlowSequenceEntryState) && Peek(Value()) == Some(t)
      modifies this
      ensures Outcome(Value(), event) == FlowSequenceItem(old(Value()), t) && events == old(events)
    {
      hide YamlParse.ParseNode, YamlParse.Close, MarkCount, LeadsTo;
      FlowTransitions();
      if t.KeyToken? {
        state := FlowSequenceEntryMappingKeyState;
        event := Some(MappingStartEvent("", "", true, FlowStyle));
        SkipToken();
      } else if !t.FlowSequenceEndToken? {
        event := PushNode(FlowSequenceEntryState, FlowSequenceEntryState, false, false);
      } else {
        event := Close(SequenceEndEvent);
      }
    }

    method ParseFlowSequenceEntryMappingKey() returns (event: Option<Event>)
      requires Fits(Value()) && state == FlowSequenceEntryMappingKeyState
      modifies this
      ensures Outcome(Value(), event) == YamlParse.ParseFlowSequenceEntryMappingKey(old(Value())) &&
              events == old(events)
    {
      hide Fits, YamlParse.ParseNode, CollectionFits, LeadsTo, CanEnter;
      ghost var s := FlowSequenceEntryMappingKeyState;
      Entrances();
      FlowTransitions();
      Entering(s);
      event := None;
      var token := PeekToken();
      if token.None? {
        return;
      }
      if !token.value.ValueToken? && !token.value.FlowEntryToken? && !token.value.FlowSequenceEndToken? {
        event := PushNode(s, FlowSequenceEntryMappingValueState, false, false);
      } else {
        SkipToken();
        state := FlowSequenceEntryMappingValueState;
        event := Some(Blank);
      }
    }

    method ParseFlowSequenceEntryMappingValue() returns (event: Option<Event>)
      requires Fits(Value()) && state == FlowSequenceEntryMappingValueState
      modifies this
      ensures Outcome(Value(), event) == YamlParse.ParseFlowSequenceEntryMappingValue(old(Value()))
      ensures events == old(events)
    {
      hide Fits, Skip, YamlParse.NodeBehind, CollectionFits, LeadsTo, CanEnter;
      ghost var s := FlowSequenceEntryMappingValueState;
      Entrances();
      FlowTransitions();
      Entering(s);
      event := None;
      var token := PeekToken();
      if token.None? {
        return;
      }
      if token.value.ValueToken? {
        event := NodeBehind(s, EndsPairInSequence, FlowSequenceEntryMappingEndState, false, false);
      } else {
        state := FlowSequenceEntryMappingEndState;
        event := Some(Blank);
      }
    }

    method ParseFlowSequenceEntryMappingEnd() returns (event: Option<Event>)
      requires Fits(Value())
      modifies this`state, this`error
      ensures Outcome(Value(), event) == YamlParse.ParseFlowSequenceEntryMappingEnd(old(Value()))
    {
      event := None;
      var token := PeekToken();
      if token.None? {
        return;
      }
      state := FlowSequenceEntryState;
      event := Some(MappingEndEvent);
    }

    method ParseFlowMappingKey(first: bool) returns (event: Option<Event>)
      requires Fits(Value()) && state == if first then FlowMappingFirstKeyState else FlowMappingKeyState
      modifies this
      ensures Outcome(Value(), event) == YamlParse.ParseFlowMappingKey(old(Value()), first) && events == old(events)
    {
      hide Fits, Open, Skip, PopMark, Fail, FlowMappingItem, YamlParse.Close, CollectionFits, LeadsTo, CanEnter;
      ghost var s := FlowMappingKeyState;
      Entrances();
      Entering(s);
      event := None;
      if first {
        OpenCollection();
      }
      var token := PeekToken();
      if token.None? {
        return;
      }
      if token.value.FlowMappingEndToken? {
        event := Close(MappingEndEvent);
        return;
      }
      if !first {
        if !token.value.FlowEntryToken? {
          event := FailInCollection();
          return;
        }
        SkipComma(s);
        token := PeekToken();
        if token.None? {
          return;
        }
      }
      event := ParseFlowMappingItem(token.value);
    }

    method ParseFlowMappingItem(t: Token) returns (event: Option<Event>)
      requires CollectionFits(Value(), FlowMappingKeyState) && Peek(Value()) == Some(t)
      modifies this
      ensures Outcome(Value(), event) == FlowMappingItem(old(Value()), t) && events == old(events)
    {
      hide YamlParse.ParseNode, YamlParse.Close, MarkCount, LeadsTo, YamlParse.NodeBehind;
      FlowTransitions();
      if t.KeyToken? {
        event := NodeBehind(FlowMappingKeyState, EndsFlowKey, FlowMappingValueState, false, false);
      } else if !t.FlowMappingEndToken? {
        event := PushNode(FlowMappingKeyState, FlowMappingEmptyValueState, false, false);
      } else {
        event := Close(MappingEndEvent);
      }
    }

    method ParseFlowMappingValue(empty: bool) returns (event: Option<Event>)
      requires Fits(Value()) && state == if empty then FlowMappingEmptyValueState else FlowMappingValueState
      modifies this
      ensures Outcome(Value(), event) == YamlParse.ParseFlowMappingValue(old(Value()), empty) && events == old(events)
    {
      hide Fits, Skip, YamlParse.NodeBehind, CollectionFits, LeadsTo, CanEnter;
      ghost var s := state;
      Entrances();
      FlowTransitions();
      Entering(s);
      event := None;
      var token := PeekToken();
      if token.None? {
        return;
      }
      if !empty && token.value.ValueToken? {
        event := NodeBehind(s, EndsFlowValue, FlowMappingKeyState, false, false);
      } else {
        state := FlowMappingKeyState;
        event := Some(Blank);
      }
    }

    // ---------------------------------------------------------------- the dispatcher

    method StateMachine() returns (event: Option<Event>)
      requires Fits(Value()) && !state.EndState?
      modifies this
      ensures Outcome(Value(), event) == YamlParse.StateMachine(old(Value())) && events == old(events)
    {
      if IsContinuation(state) || IsFirst(state) {
        event := CollectionStep();
      } else {
        event := DocumentStep();
      }
    }

    method DocumentStep() returns (event: Option<Event>)
      requires Fits(Value()) && !state.EndState? && !IsContinuation(state) && !IsFirst(state)
      modifies this
      ensures Outcome(Value(), event) == YamlParse.StateMachine(old(Value())) && events == old(events)
    {
      hide Frames, MarkCount, InsideDocument, Opens, YamlParse.ParseStreamStart, YamlParse.ParseDocumentStart,
        YamlParse.ParseDocumentContent, YamlParse.ParseDocumentEnd, YamlParse.ParseNode;
      match state
      case StreamStartState => event := ParseStreamStart();
      case ImplicitDocumentStartState => event := ParseDocumentStart(true);
      case DocumentStartState => event := ParseDocumentStart(false);
      case DocumentContentState => event := ParseDocumentContent();
      case DocumentEndState => event := ParseDocumentEnd();
      case BlockNodeState => event := ParseNode(true, false);
      case BlockNodeOrIndentlessSequenceState => event := ParseNode(true, true);
      case FlowNodeState => event := ParseNode(false, false);
    }

    method CollectionStep() returns (event: Option<Event>)
      requires Fits(Value()) && (IsContinuation(state) || IsFirst(state))
      modifies this
      ensures Outcome(Value(), event) == YamlParse.StateMachine(old(Value())) && events == old(events)
    {
      hide Fits, YamlParse.StateMachine;
      if InFlow(state) {
        event := FlowStep();
      } else {
        event := BlockStep();
      }
    }

    method BlockStep() returns (event: Option<Event>)
      requires Fits(Value()) && (IsContinuation(state) || IsFirst(state)) && !InFlow(state)
      modifies this
      ensures Outcome(Value(), event) == YamlParse.StateMachine(old(Value())) && events == old(events)
    {
      hide Fits, YamlParse.ParseBlockSequenceEntry, YamlParse.ParseIndentlessSequenceEntry,
        YamlParse.ParseBlockMappingKey, YamlParse.ParseBlockMappingValue;
      match state
      case BlockSequenceFirstEntryState => event := ParseBlockSequenceEntry(true);
      case BlockSequenceEntryState => event := ParseBlockSequenceEntry(false);
      case IndentlessSequenceEntryState => event := ParseIndentlessSequenceEntry();
      case BlockMappingFirstKeyState => event := ParseBlockMappingKey(true);
      case BlockMappingKeyState => event := ParseBlockMappingKey(false);
      case BlockMappingValueState => event := ParseBlockMappingValue();
    }

    method FlowStep() returns (event: Option<Event>)
      requires Fits(Value()) && InFlow(state)
      modifies this
      ensures Outcome(Value(), event) == YamlParse.StateMachine(old(Value())) && events == old(events)
    {
      hide Fits, YamlParse.ParseFlowSequenceEntry, YamlParse.ParseFlowSequenceEntryMappingKey,
        YamlParse.ParseFlowSequenceEntryMappingValue, YamlParse.ParseFlowSequenceEntryMappingEnd,
        YamlParse.ParseFlowMappingKey, YamlParse.ParseFlowMappingValue;
      match state
      case FlowSequenceFirstEntryState => event := ParseFlowSequenceEntry(true);
      case FlowSequenceEntryState => event := ParseFlowSequenceEntry(false);
      case FlowSequenceEntryMappingKeyState => event := ParseFlowSequenceEntryMappingKey();
      case FlowSequenceEntryMappingValueState => event := ParseFlowSequenceEntryMappingValue();
      case FlowSequenceEntryMappingEndState => event := ParseFlowSequenceEntryMappingEnd();
      case FlowMappingFirstKeyState => event := ParseFlowMappingKey(true);
      case FlowMappingKeyState => event := ParseFlowMappingKey(false);
      case FlowMappingValueState => event := ParseFlowMappingValue(false);
      case FlowMappingEmptyValueState => event := ParseFlowMappingValue(true);
    }

    /**
     The next event, if there is one.  Whatever the tokens and however often it is called, the events begin a
     stream; at the end they are a whole one and the stacks are empty.
     */
    method Parse() returns (ok: bool, event: Option<Event>)
      requires Valid()
      modifies this
      ensures Valid() && Run(Value(), events) == Next(old(Run(Value(), events)))
      ensures Outcome(Value(), event) == YamlParse.Parse(old(Value()))
      ensures error != Panic && IsStreamPrefix(events)
      ensures error == NoError && state.EndState? ==> IsStream(events) && states == [] && marks == []
      ensures ok == (error == NoError || old(error) != NoError)
    {
      hide Fits, Stack, YamlParse.StateMachine, IsStream, IsStreamPrefix;
      NextFits(Run(Value(), events));
      if ended || error != NoError || state == EndState {
        ok, event := true, None;
      } else {
        event := StateMachine();
        ok := error == NoError;
        if event.Some? {
          events := events + [event.value];
        }
      }
      RunIsStream(Run(Value(), events));
    }
  }
}
