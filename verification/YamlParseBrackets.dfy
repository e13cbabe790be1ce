/**
 The marks stack against the tokens consumed.  Every opening token leaves a mark and every closing token that ends its
 collection takes one away; a closing token that is skipped in any other way can never be made up for.
 */
module YamlParseBrackets {
  import opened Common
  import opened YamlEvents
  import opened YamlParse
  import opened YamlParseSafety

  function Weight(t: Token): int {
    if t.BlockSequenceStartToken? || t.BlockMappingStartToken? || t.FlowSequenceStartToken? ||
        t.FlowMappingStartToken? then 1
    else if t.BlockEndToken? || t.FlowSequenceEndToken? || t.FlowMappingEndToken? then -1
    else 0
  }

  /** Opening minus closing tokens. */
  function Net(ts: seq<Token>): int {
    if ts == [] then 0 else Net(ts[..|ts| - 1]) + Weight(ts[|ts| - 1])
  }

  lemma NetStep(ts: seq<Token>, i: nat)
    requires i < |ts|
    ensures Net(ts[..i + 1]) == Net(ts[..i]) + Weight(ts[i])
  {
    assert ts[..i + 1][..i] == ts[..i];
  }

  lemma {:induction false} NetConcat(a: seq<Token>, b: seq<Token>)
    ensures Net(a + b) == Net(a) + Net(b)
  {
    if b == [] {
      assert a + b == a;
    } else {
      assert (a + b)[..|a + b| - 1] == a + b[..|b| - 1];
      NetConcat(a, b[..|b| - 1]);
    }
  }

  /** How many closing tokens have been consumed without closing anything. */
  function Lost(m: Machine): int
    requires m.pos <= |m.tokens|
  {
    |m.marks| - Net(m.tokens[..m.pos])
  }

  /** A step that ends in an event makes up for nothing that was lost before, and loses at least `more`. */
  predicate Keeps(m: Machine, o: Outcome, more: nat)
    requires m.pos <= |m.tokens|
  {
    o.event.Some? ==> o.m.tokens == m.tokens && m.pos <= o.m.pos <= |m.tokens| && Lost(o.m) >= Lost(m) + more
  }

  lemma KeepsFrom(m: Machine, n: Machine, o: Outcome, more: nat)
    requires m.pos <= |m.tokens| && n.tokens == m.tokens && m.pos <= n.pos <= |n.tokens| && Lost(n) >= Lost(m)
    requires Keeps(n, o, more)
    ensures Keeps(m, o, more)
  {
  }

  // ---------------------------------------------------------------- pieces of steps

  lemma SkipLoses(m: Machine)
    requires m.pos < |m.tokens|
    ensures Lost(Skip(m)) == Lost(m) - Weight(m.tokens[m.pos])
  {
    NetStep(m.tokens, m.pos);
  }

  lemma OpenKeeps(m: Machine)
    requires m.pos < |m.tokens| && Weight(m.tokens[m.pos]) == 1
    ensures Lost(Open(m)) == Lost(m)
  {
    NetStep(m.tokens, m.pos);
  }

  lemma CloseKeeps(m: Machine, e: Event)
    requires m.pos < |m.tokens| && Weight(m.tokens[m.pos]) == -1
    ensures Keeps(m, Close(m, e), 0)
  {
    NetStep(m.tokens, m.pos);
  }

  /** Neither tokens nor marks change. */
  lemma TurnKeeps(m: Machine, n: Machine, e: Event)
    requires m.pos <= |m.tokens| && n.tokens == m.tokens && n.pos == m.pos && n.marks == m.marks
    ensures Keeps(m, Emit(n, e), 0)
  {
  }

  lemma TurnAndSkipKeeps(m: Machine, n: Machine, e: Event)
    requires m.pos < |m.tokens| && n.tokens == m.tokens && n.pos == m.pos && n.marks == m.marks
    requires Weight(m.tokens[m.pos]) == 0
    ensures Keeps(m, Emit(Skip(n), e), 0)
  {
    NetStep(m.tokens, m.pos);
  }

  lemma StuckKeeps(m: Machine, o: Outcome)
    requires m.pos <= |m.tokens| && o.event == None
    ensures Keeps(m, o, 0)
  {
  }

  // ---------------------------------------------------------------- nodes

  lemma PropertiesKeep(m: Machine)
    requires m.pos <= |m.tokens|
    ensures var p := ReadProperties(m).m; m.pos <= p.pos <= |p.tokens| && Lost(p) == Lost(m)
  {
    if m.pos < |m.tokens| { NetStep(m.tokens, m.pos); }
    if m.pos + 1 < |m.tokens| { NetStep(m.tokens, m.pos + 1); }
  }

  lemma ContentKeeps(m: Machine, anchor: string, tag: string, block: bool, indentless: bool)
    requires m.pos < |m.tokens|
    ensures Keeps(m, ParseContent(m, m.tokens[m.pos], anchor, tag, block, indentless), 0)
  {
    hide Net;
    NetStep(m.tokens, m.pos);
  }

  lemma NodeKeeps(m: Machine, block: bool, indentless: bool)
    requires m.pos <= |m.tokens|
    ensures Keeps(m, ParseNode(m, block, indentless), 0)
  {
    hide ReadProperties, Resolve, ParseContent, Net;
    if m.pos < |m.tokens| {
      if m.tokens[m.pos].AliasToken? {
        NetStep(m.tokens, m.pos);
      } else {
        var p := ReadProperties(m);
        PropertiesKeep(m);
        if p.m.pos < |m.tokens| && Resolve(p.m.directives, p.tag).Some? {
          ContentKeeps(p.m, p.anchor, Resolve(p.m.directives, p.tag).value, block, indentless);
          KeepsFrom(m, p.m, ParseNode(m, block, indentless), 0);
        }
      }
    }
  }

  lemma PushedKeeps(m: Machine, next: State, block: bool, indentless: bool)
    requires m.pos <= |m.tokens|
    ensures Keeps(m, ParseNode(Push(m, next), block, indentless), 0)
  {
    hide ParseNode;
    NodeKeeps(Push(m, next), block, indentless);
    KeepsFrom(m, Push(m, next), ParseNode(Push(m, next), block, indentless), 0);
  }

  lemma NodeBehindKeeps(m: Machine, ends: Token -> bool, next: State, block: bool, indentless: bool)
    requires m.pos < |m.tokens| && Weight(m.tokens[m.pos]) == 0
    ensures Keeps(m, NodeBehind(m, ends, next, block, indentless), 0)
  {
    hide ParseNode, Lost, Net;
    SkipLoses(m);
    var n, o := Skip(m), NodeBehind(m, ends, next, block, indentless);
    if n.pos < |n.tokens| {
      if ends(n.tokens[n.pos]) {
        TurnKeeps(n, n.(state := next), Blank);
      } else {
        PushedKeeps(n, next, block, indentless);
      }
    } else {
      StuckKeeps(n, o);
    }
    KeepsFrom(m, n, o, 0);
  }

  // ---------------------------------------------------------------- collections

  /** Into a collection: a FIRST state consumes its opening token. */
  lemma EnterKeeps(m: Machine, first: bool)
    requires Fits(m) && first == IsFirst(m.state)
    ensures var n := if first then Open(m) else m;
            n.tokens == m.tokens && m.pos <= n.pos <= |n.tokens| && Lost(n) == Lost(m)
  {
    if first { OpenKeeps(m); }
  }

  lemma BlockSequenceKeeps(m: Machine, first: bool)
    requires Fits(m) && m.state == if first then BlockSequenceFirstEntryState else BlockSequenceEntryState
    ensures Keeps(m, ParseBlockSequenceEntry(m, first), 0)
  {
    EnterKeeps(m, first);
    hide Fits, NodeBehind, Close, Lost, Open;
    var n, o := if first then Open(m) else m, ParseBlockSequenceEntry(m, first);
    if n.pos == |n.tokens| { StuckKeeps(n, o); }
    else if n.tokens[n.pos].BlockEntryToken? {
      NodeBehindKeeps(n, EndsBlockItem, BlockSequenceEntryState, true, false);
    }
    else if n.tokens[n.pos].BlockEndToken? { CloseKeeps(n, SequenceEndEvent); }
    else { StuckKeeps(n, o); }
    KeepsFrom(m, n, o, 0);
  }

  lemma IndentlessSequenceKeeps(m: Machine)
    requires Fits(m) && m.state == IndentlessSequenceEntryState
    ensures Keeps(m, ParseIndentlessSequenceEntry(m), 0)
  {
    hide NodeBehind, Lost, MarkCount;
    var o := ParseIndentlessSequenceEntry(m);
    if m.pos == |m.tokens| { StuckKeeps(m, o); }
    else if m.tokens[m.pos].BlockEntryToken? {
      NodeBehindKeeps(m, EndsIndentlessItem, IndentlessSequenceEntryState, true, false);
    }
    else { TurnKeeps(m, PopState(m), SequenceEndEvent); }
  }

  lemma BlockMappingKeyKeeps(m: Machine, first: bool)
    requires Fits(m) && m.state == if first then BlockMappingFirstKeyState else BlockMappingKeyState
    ensures Keeps(m, ParseBlockMappingKey(m, first), 0)
  {
    EnterKeeps(m, first);
    hide Fits, NodeBehind, Close, Lost, Open;
    var n, o := if first then Open(m) else m, ParseBlockMappingKey(m, first);
    if n.pos == |n.tokens| { StuckKeeps(n, o); }
    else if n.tokens[n.pos].KeyToken? { NodeBehindKeeps(n, EndsBlockPair, BlockMappingValueState, true, true); }
    else if n.tokens[n.pos].BlockEndToken? { CloseKeeps(n, MappingEndEvent); }
    else { StuckKeeps(n, o); }
    KeepsFrom(m, n, o, 0);
  }

  /** A value behind VALUE, or an empty scalar. */
  lemma ValueKeeps(m: Machine, ends: Token -> bool, next: State, block: bool, indentless: bool, o: Outcome)
    requires m.pos < |m.tokens|
    requires o == if m.tokens[m.pos].ValueToken? then NodeBehind(m, ends, next, block, indentless)
                  else EmitEmpty(m.(state := next))
    ensures Keeps(m, o, 0)
  {
    hide NodeBehind, Lost;
    if m.tokens[m.pos].ValueToken? { NodeBehindKeeps(m, ends, next, block, indentless); }
    else { TurnKeeps(m, m.(state := next), Blank); }
  }

  lemma BlockMappingValueKeeps(m: Machine)
    requires m.pos <= |m.tokens|
    ensures Keeps(m, ParseBlockMappingValue(m), 0)
  {
    hide NodeBehind, Lost;
    if m.pos < |m.tokens| { ValueKeeps(m, EndsBlockPair, BlockMappingKeyState, true, true, ParseBlockMappingValue(m)); }
  }

  lemma FlowSequenceItemKeeps(m: Machine)
    requires m.pos < |m.tokens|
    ensures Keeps(m, FlowSequenceItem(m, m.tokens[m.pos]), 0)
  {
    hide ParseNode, Close, Lost;
    var t := m.tokens[m.pos];
    if t.KeyToken? {
      TurnAndSkipKeeps(m, m.(state := FlowSequenceEntryMappingKeyState), MappingStartEvent("", "", true, FlowStyle));
    }
    else if !t.FlowSequenceEndToken? { PushedKeeps(m, FlowSequenceEntryState, false, false); }
    else { CloseKeeps(m, SequenceEndEvent); }
  }

  lemma FlowSequenceKeeps(m: Machine, first: bool)
    requires Fits(m) && m.state == if first then FlowSequenceFirstEntryState else FlowSequenceEntryState
    ensures Keeps(m, ParseFlowSequenceEntry(m, first), 0)
  {
    EnterKeeps(m, first);
    hide Fits, FlowSequenceItem, Close, Lost, Open;
    var n, o := if first then Open(m) else m, ParseFlowSequenceEntry(m, first);
    if n.pos == |n.tokens| { StuckKeeps(n, o); }
    else if n.tokens[n.pos].FlowSequenceEndToken? { CloseKeeps(n, SequenceEndEvent); }
    else if first { FlowSequenceItemKeeps(n); }
    else if n.tokens[n.pos].FlowEntryToken? {
      SkipLoses(n);
      if n.pos + 1 < |n.tokens| { FlowSequenceItemKeeps(Skip(n)); } else { StuckKeeps(Skip(n), o); }
      KeepsFrom(n, Skip(n), o, 0);
    }
    else { StuckKeeps(n, o); }
    KeepsFrom(m, n, o, 0);
  }

  /** The one place where a closing token may get lost. */
  lemma FlowSequenceEntryMappingKeyKeeps(m: Machine)
    requires m.pos <= |m.tokens|
    ensures Keeps(m, ParseFlowSequenceEntryMappingKey(m), 0)
    ensures m.pos < |m.tokens| && m.tokens[m.pos].FlowSequenceEndToken? ==>
            Keeps(m, ParseFlowSequenceEntryMappingKey(m), 1)
  {
    hide ParseNode;
    if m.pos < |m.tokens| {
      SkipLoses(m);
      PushedKeeps(m, FlowSequenceEntryMappingValueState, false, false);
    }
  }

  lemma FlowSequenceEntryMappingValueKeeps(m: Machine)
    requires m.pos <= |m.tokens|
    ensures Keeps(m, ParseFlowSequenceEntryMappingValue(m), 0)
  {
    hide NodeBehind, Lost;
    if m.pos < |m.tokens| {
      ValueKeeps(m, EndsPairInSequence, FlowSequenceEntryMappingEndState, false, false,
                 ParseFlowSequenceEntryMappingValue(m));
    }
  }

  lemma FlowMappingItemKeeps(m: Machine)
    requires m.pos < |m.tokens|
    ensures Keeps(m, FlowMappingItem(m, m.tokens[m.pos]), 0)
  {
    hide ParseNode, Close, NodeBehind, Lost;
    var t := m.tokens[m.pos];
    if t.KeyToken? { NodeBehindKeeps(m, EndsFlowKey, FlowMappingValueState, false, false); }
    else if !t.FlowMappingEndToken? { PushedKeeps(m, FlowMappingEmptyValueState, false, false); }
    else { CloseKeeps(m, MappingEndEvent); }
  }

  lemma FlowMappingKeyKeeps(m: Machine, first: bool)
    requires Fits(m) && m.state == if first then FlowMappingFirstKeyState else FlowMappingKeyState
    ensures Keeps(m, ParseFlowMappingKey(m, first), 0)
  {
    EnterKeeps(m, first);
    hide Fits, FlowMappingItem, Close, Lost, Open;
    var n, o := if first then Open(m) else m, ParseFlowMappingKey(m, first);
    if n.pos == |n.tokens| { StuckKeeps(n, o); }
    else if n.tokens[n.pos].FlowMappingEndToken? { CloseKeeps(n, MappingEndEvent); }
    else if first { FlowMappingItemKeeps(n); }
    else if n.tokens[n.pos].FlowEntryToken? {
      SkipLoses(n);
      if n.pos + 1 < |n.tokens| { FlowMappingItemKeeps(Skip(n)); } else { StuckKeeps(Skip(n), o); }
      KeepsFrom(n, Skip(n), o, 0);
    }
    else { StuckKeeps(n, o); }
    KeepsFrom(m, n, o, 0);
  }

  lemma FlowMappingValueKeeps(m: Machine, empty: bool)
    requires m.pos <= |m.tokens|
    ensures Keeps(m, ParseFlowMappingValue(m, empty), 0)
  {
    hide NodeBehind, Lost;
    if m.pos < |m.tokens| {
      if empty {
        TurnKeeps(m, m.(state := FlowMappingKeyState), Blank);
      } else {
        ValueKeeps(m, EndsFlowValue, FlowMappingKeyState, false, false, ParseFlowMappingValue(m, empty));
      }
    }
  }

  // ---------------------------------------------------------------- documents

  lemma {:induction false} SkipDocumentEndsKeeps(m: Machine)
    requires m.pos <= |m.tokens|
    ensures var r := SkipDocumentEnds(m); m.pos <= r.pos <= |r.tokens| && Lost(r) == Lost(m)
    decreases |m.tokens| - m.pos
  {
    hide Lost;
    if Peek(m) == Some(DocumentEndToken) {
      SkipLoses(m);
      SkipDocumentEndsKeeps(Skip(m));
    }
  }

  lemma {:induction false} DirectivesKeep(m: Machine, version: bool, tags: seq<TagDirective>)
    requires m.pos <= |m.tokens|
    ensures var d := ProcessDirectives(m, version, tags).m;
            m.pos <= d.pos <= |d.tokens| && Lost(d) == Lost(m)
    decreases |m.tokens| - m.pos
  {
    hide WithDefaults, Declared, Net;
    var d := ProcessDirectives(m, version, tags);
    if m.pos < |m.tokens| && d.m.pos > m.pos {
      SkipLoses(m);
      if m.tokens[m.pos].VersionDirectiveToken? {
        DirectivesKeep(Skip(m), true, tags);
      } else {
        var t := m.tokens[m.pos].directive;
        DirectivesKeep(Skip(m.(directives := m.directives + [t])), version, tags + [t]);
      }
    }
  }

  lemma DocumentKeeps(m: Machine)
    requires m.pos < |m.tokens|
    ensures Keeps(m, ImplicitDocument(m), 0) && Keeps(m, ExplicitDocument(m), 0)
  {
    hide ProcessDirectives, Net;
    var d := ProcessDirectives(m, false, []);
    DirectivesKeep(m, false, []);
    if d.m.pos < |m.tokens| { NetStep(m.tokens, d.m.pos); }
  }

  lemma DocumentStartKeeps(m: Machine, implicit: bool)
    requires m.pos <= |m.tokens|
    ensures Keeps(m, ParseDocumentStart(m, implicit), 0)
  {
    hide ImplicitDocument, ExplicitDocument, SkipDocumentEnds, StartsDocument, Lost;
    SkipDocumentEndsKeeps(m);
    var n, o := if implicit then m else SkipDocumentEnds(m), ParseDocumentStart(m, implicit);
    if n.pos == |n.tokens| { StuckKeeps(n, o); }
    else if n.tokens[n.pos].StreamEndToken? { TurnAndSkipKeeps(n, n.(state := EndState), StreamEndEvent); }
    else { DocumentKeeps(n); }
    KeepsFrom(m, n, o, 0);
  }

  lemma OutsideKeeps(m: Machine)
    requires m.pos <= |m.tokens|
    ensures Keeps(m, ParseStreamStart(m), 0) && Keeps(m, ParseDocumentContent(m), 0) && Keeps(m, ParseDocumentEnd(m), 0)
  {
    hide ParseNode, Net;
    NodeKeeps(m, true, false);
    if m.pos < |m.tokens| { NetStep(m.tokens, m.pos); }
  }

  // ---------------------------------------------------------------- every step, every run

  lemma CollectionStepKeeps(m: Machine)
    requires Fits(m) && (IsContinuation(m.state) || IsFirst(m.state))
    ensures Keeps(m, StateMachine(m), 0)
  {
    hide Fits, Lost, ParseBlockSequenceEntry, ParseIndentlessSequenceEntry, ParseBlockMappingKey,
      ParseBlockMappingValue, ParseFlowSequenceEntry, ParseFlowSequenceEntryMappingKey,
      ParseFlowSequenceEntryMappingValue, ParseFlowMappingKey, ParseFlowMappingValue;
    assert m.pos <= |m.tokens| by { PositionFits(m); }
    match m.state
    case BlockSequenceFirstEntryState => BlockSequenceKeeps(m, true);
    case BlockSequenceEntryState => BlockSequenceKeeps(m, false);
    case IndentlessSequenceEntryState => IndentlessSequenceKeeps(m);
    case BlockMappingFirstKeyState => BlockMappingKeyKeeps(m, true);
    case BlockMappingKeyState => BlockMappingKeyKeeps(m, false);
    case BlockMappingValueState => BlockMappingValueKeeps(m);
    case FlowSequenceFirstEntryState => FlowSequenceKeeps(m, true);
    case FlowSequenceEntryState => FlowSequenceKeeps(m, false);
    case FlowSequenceEntryMappingKeyState => FlowSequenceEntryMappingKeyKeeps(m);
    case FlowSequenceEntryMappingValueState => FlowSequenceEntryMappingValueKeeps(m);
    case FlowSequenceEntryMappingEndState => TurnKeeps(m, m.(state := FlowSequenceEntryState), MappingEndEvent);
    case FlowMappingFirstKeyState => FlowMappingKeyKeeps(m, true);
    case FlowMappingKeyState => FlowMappingKeyKeeps(m, false);
    case FlowMappingValueState => FlowMappingValueKeeps(m, false);
    case FlowMappingEmptyValueState => FlowMappingValueKeeps(m, true);
  }

  lemma PositionFits(m: Machine)
    requires Fits(m)
    ensures m.pos <= |m.tokens|
  {
  }

  lemma StateMachineKeeps(m: Machine)
    requires Fits(m) && !m.state.EndState?
    ensures m.pos <= |m.tokens| && Keeps(m, StateMachine(m), 0)
  {
    hide Lost, ParseStreamStart, ParseDocumentStart, ParseDocumentContent, ParseDocumentEnd, ParseNode;
    PositionFits(m);
    if IsContinuation(m.state) || IsFirst(m.state) {
      CollectionStepKeeps(m);
    } else {
      OutsideKeeps(m);
      DocumentStartKeeps(m, true);
      DocumentStartKeeps(m, false);
      NodeKeeps(m, true, false);
      NodeKeeps(m, true, true);
      NodeKeeps(m, false, false);
    }
  }
}
