/**
 The YAML parser as a pushdown machine over tokens: what each production of the state machine does, on values.
 Scanning is the list of tokens: a peek behind its end is a scanner that fails there.
 */
module YamlParse {
  import opened Common
  import opened YamlEvents

  datatype Token =
    | StreamStartToken
    | StreamEndToken
    | VersionDirectiveToken(major: int, minor: int)
    | TagDirectiveToken(directive: TagDirective)
    | DocumentStartToken
    | DocumentEndToken
    | BlockSequenceStartToken
    | BlockMappingStartToken
    | BlockEndToken
    | FlowSequenceStartToken
    | FlowSequenceEndToken
    | FlowMappingStartToken
    | FlowMappingEndToken
    | BlockEntryToken
    | FlowEntryToken
    | KeyToken
    | ValueToken
    | AliasToken(name: string)
    | AnchorToken(name: string)
    | TagToken(handle: string, suffix: string)
    | ScalarToken(value: string, style: ScalarStyle)

  datatype State =
    | StreamStartState
    | ImplicitDocumentStartState
    | DocumentStartState
    | DocumentContentState
    | DocumentEndState
    | BlockNodeState
    | BlockNodeOrIndentlessSequenceState
    | FlowNodeState
    | BlockSequenceFirstEntryState
    | BlockSequenceEntryState
    | IndentlessSequenceEntryState
    | BlockMappingFirstKeyState
    | BlockMappingKeyState
    | BlockMappingValueState
    | FlowSequenceFirstEntryState
    | FlowSequenceEntryState
    | FlowSequenceEntryMappingKeyState
    | FlowSequenceEntryMappingValueState
    | FlowSequenceEntryMappingEndState
    | FlowMappingFirstKeyState
    | FlowMappingKeyState
    | FlowMappingValueState
    | FlowMappingEmptyValueState
    | EndState

  /** Panic is an index out of range or a nil token: the code would crash. */
  datatype Error = NoError | ScannerError | ParserError | Panic

  /** A mark is the position of its token. */
  datatype Machine = Machine(
    tokens: seq<Token>, pos: nat, ended: bool,
    state: State, states: seq<State>, marks: seq<nat>, directives: seq<TagDirective>, error: Error)

  datatype Outcome = Outcome(m: Machine, event: Option<Event>)

  function Begin(tokens: seq<Token>): Machine {
    Machine(tokens, 0, false, StreamStartState, [], [], [], NoError)
  }

  // ---------------------------------------------------------------- tokens and stacks

  function Peek(m: Machine): Option<Token> {
    if m.pos < |m.tokens| then Some(m.tokens[m.pos]) else None
  }

  function Skip(m: Machine): Machine {
    if m.pos < |m.tokens| then m.(pos := m.pos + 1, ended := m.tokens[m.pos].StreamEndToken?)
    else m.(error := Panic)
  }

  function Push(m: Machine, s: State): Machine {
    m.(states := m.states + [s])
  }

  function PopState(m: Machine): Machine {
    if m.states == [] then m.(error := Panic) else m.(state := Last(m.states), states := Init(m.states))
  }

  function PopMark(m: Machine): Machine {
    if m.marks == [] then m.(error := Panic) else m.(marks := Init(m.marks))
  }

  /** The FIRST states: the opening token, seen before, is marked and skipped. */
  function Open(m: Machine): Machine {
    Skip(m.(marks := m.marks + [m.pos]))
  }

  function Emit(m: Machine, e: Event): Outcome {
    Outcome(m, if m.error == NoError then Some(e) else None)
  }

  function EmitEmpty(m: Machine): Outcome {
    Emit(m, Blank)
  }

  /** The scanner failed. */
  function NoToken(m: Machine): Outcome {
    Outcome(if m.error == Panic then m else m.(error := ScannerError), None)
  }

  function Fail(m: Machine): Outcome {
    Outcome(if m.error == Panic then m else m.(error := ParserError), None)
  }

  // ---------------------------------------------------------------- the stream and its documents

  function ParseStreamStart(m: Machine): Outcome {
    match Peek(m)
    case None => NoToken(m)
    case Some(t) =>
      if !t.StreamStartToken? then Fail(m)
      else Emit(Skip(m.(state := ImplicitDocumentStartState)), StreamStartEvent)
  }

  function SkipDocumentEnds(m: Machine): (r: Machine)
    ensures m.pos <= r.pos && r == m.(pos := r.pos, ended := r.ended) && (!m.ended ==> !r.ended)
    decreases |m.tokens| - m.pos
  {
    if Peek(m) == Some(DocumentEndToken) then SkipDocumentEnds(Skip(m)) else m
  }

  function ParseDocumentStart(m0: Machine, implicit: bool): Outcome {
    var m := if implicit then m0 else SkipDocumentEnds(m0);
    match Peek(m)
    case None => NoToken(m)
    case Some(t) =>
      if implicit && !StartsDocument(t) && !t.StreamEndToken? then ImplicitDocument(m)
      else if !t.StreamEndToken? then ExplicitDocument(m)
      else Emit(Skip(m.(state := EndState)), StreamEndEvent)
  }

  predicate StartsDocument(t: Token) {
    t.VersionDirectiveToken? || t.TagDirectiveToken? || t.DocumentStartToken?
  }

  function ImplicitDocument(m: Machine): Outcome {
    var d := ProcessDirectives(m, false, []);
    if d.m.error != NoError then Outcome(d.m, None)
    else Emit(Push(d.m, DocumentEndState).(state := BlockNodeState), DocumentStartEvent(false, [], false))
  }

  function ExplicitDocument(m: Machine): Outcome {
    var d := ProcessDirectives(m, false, []);
    if d.m.error != NoError then Outcome(d.m, None)
    else match Peek(d.m)
      case None => NoToken(d.m)
      case Some(t) =>
        if !t.DocumentStartToken? then Fail(d.m)
        else Emit(Skip(Push(d.m, DocumentEndState).(state := DocumentContentState)),
                  DocumentStartEvent(d.version, d.tags, false))
  }

  function ParseDocumentContent(m: Machine): Outcome {
    match Peek(m)
    case None => NoToken(m)
    case Some(t) =>
      if StartsDocument(t) || t.DocumentEndToken? || t.StreamEndToken? then EmitEmpty(PopState(m))
      else ParseNode(m, true, false)
  }

  function ParseDocumentEnd(m0: Machine): Outcome {
    match Peek(m0)
    case None => NoToken(m0)
    case Some(t) =>
      var m := if t.DocumentEndToken? then Skip(m0) else m0;
      Emit(m.(directives := [], state := DocumentStartState), DocumentEndEvent(!t.DocumentEndToken?))
  }

  // ---------------------------------------------------------------- directives

  datatype Directives = Directives(m: Machine, version: bool, tags: seq<TagDirective>)

  function ProcessDirectives(m: Machine, version: bool, tags: seq<TagDirective>): (d: Directives)
    ensures d.m.tokens == m.tokens && m.pos <= d.m.pos
    ensures d.m.state == m.state && d.m.states == m.states && d.m.marks == m.marks && (!m.ended ==> !d.m.ended)
    ensures m.error == NoError ==> d.m.error != Panic && (m.pos <= |m.tokens| ==> d.m.pos <= |m.tokens|)
    ensures m.error == d.m.error == NoError ==> d.m.pos < |m.tokens|
    decreases |m.tokens| - m.pos
  {
    match Peek(m)
    case None => Directives(m.(error := ScannerError), version, tags)
    case Some(VersionDirectiveToken(major, minor)) =>
      if version || major != 1 || minor != 1 then Directives(m.(error := ParserError), version, tags)
      else ProcessDirectives(Skip(m), true, tags)
    case Some(TagDirectiveToken(d)) =>
      if Declared(m.directives, d.handle) then Directives(m.(error := ParserError), version, tags)
      else ProcessDirectives(Skip(m.(directives := m.directives + [d])), version, tags + [d])
    case Some(_) => Directives(m.(directives := WithDefaults(m.directives)), version, tags)
  }

  // ---------------------------------------------------------------- nodes

  /** The properties in front of a node: anchor and tag in either order. */
  datatype Properties = Properties(m: Machine, anchor: string, tag: Option<(string, string)>)

  function ReadProperties(m: Machine): (p: Properties)
    ensures p.m.tokens == m.tokens && m.pos <= p.m.pos && (m.pos <= |m.tokens| ==> p.m.pos <= |m.tokens|)
    ensures p.m == m.(pos := p.m.pos, ended := p.m.ended) && (!m.ended ==> !p.m.ended)
  {
    match Peek(m)
    case Some(AnchorToken(a)) =>
      var m1 := Skip(m);
      (match Peek(m1)
       case Some(TagToken(h, s)) => Properties(Skip(m1), a, Some((h, s)))
       case _ => Properties(m1, a, None))
    case Some(TagToken(h, s)) =>
      var m1 := Skip(m);
      (match Peek(m1)
       case Some(AnchorToken(a)) => Properties(Skip(m1), a, Some((h, s)))
       case _ => Properties(m1, "", Some((h, s))))
    case _ => Properties(m, "", None)
  }

  /** The prefix declared for a handle, or the empty string. */
  function PrefixOf(ds: seq<TagDirective>, handle: string): string {
    if ds == [] then ""
    else if ds[0].handle == handle then ds[0].prefix
    else PrefixOf(ds[1..], handle)
  }

  function Resolve(ds: seq<TagDirective>, tag: Option<(string, string)>): Option<string> {
    match tag
    case None => Some("")
    case Some((handle, suffix)) =>
      if handle == "" then Some(suffix)
      else if !Declared(ds, handle) || PrefixOf(ds, handle) + suffix == "" then None
      else Some(PrefixOf(ds, handle) + suffix)
  }

  function ParseNode(m: Machine, block: bool, indentless: bool): Outcome {
    match Peek(m)
    case None => NoToken(m)
    case Some(AliasToken(name)) => Emit(Skip(PopState(m)), AliasEvent(name))
    case Some(_) =>
      var p := ReadProperties(m);
      match Peek(p.m)
      case None => NoToken(p.m)
      case Some(t) =>
        match Resolve(p.m.directives, p.tag)
        case None => Fail(p.m)
        case Some(tag) => ParseContent(p.m, t, p.anchor, tag, block, indentless)
  }

  /** The content `t` of a node whose properties have been read. */
  function ParseContent(m: Machine, t: Token, anchor: string, tag: string, block: bool, indentless: bool): Outcome {
    if indentless && t.BlockEntryToken? then
      Emit(m.(state := IndentlessSequenceEntryState), SequenceStartEvent(anchor, tag, tag == "", BlockStyle))
    else if t.ScalarToken? then
      Emit(Skip(PopState(m)), ScalarOf(t, anchor, tag))
    else if t.FlowSequenceStartToken? then
      Emit(m.(state := FlowSequenceFirstEntryState), SequenceStartEvent(anchor, tag, tag == "", FlowStyle))
    else if t.FlowMappingStartToken? then
      Emit(m.(state := FlowMappingFirstKeyState), MappingStartEvent(anchor, tag, tag == "", FlowStyle))
    else if block && t.BlockSequenceStartToken? then
      Emit(m.(state := BlockSequenceFirstEntryState), SequenceStartEvent(anchor, tag, tag == "", BlockStyle))
    else if block && t.BlockMappingStartToken? then
      Emit(m.(state := BlockMappingFirstKeyState), MappingStartEvent(anchor, tag, tag == "", BlockStyle))
    else if anchor != "" || tag != "" then
      Emit(PopState(m), ScalarEvent(anchor, tag, "", tag == "", false, PlainStyle))
    else Fail(m)
  }

  function ScalarOf(t: Token, anchor: string, tag: string): Event
    requires t.ScalarToken?
  {
    var plain := (tag == "" && t.style == PlainStyle) || tag == "!";
    ScalarEvent(anchor, tag, t.value, plain, !plain && tag == "", t.style)
  }

  // ---------------------------------------------------------------- collections

  /** A closing token ends the collection. */
  function Close(m: Machine, e: Event): Outcome {
    Emit(Skip(PopMark(PopState(m))), e)
  }

  /** An entry or its absence: a node starts at `t`, or an empty scalar stands in. */
  function NodeOr(m: Machine, absent: bool, next: State, block: bool, indentless: bool): Outcome {
    if absent then EmitEmpty(m.(state := next)) else ParseNode(Push(m, next), block, indentless)
  }

  /** Behind an indicator: a node, or nothing when the next token is one of those that end the entry. */
  function NodeBehind(m0: Machine, ends: Token -> bool, next: State, block: bool, indentless: bool): Outcome {
    var m := Skip(m0);
    match Peek(m)
    case None => NoToken(m)
    case Some(t) => NodeOr(m, ends(t), next, block, indentless)
  }

  predicate EndsBlockItem(t: Token) {
    t.BlockEntryToken? || t.BlockEndToken?
  }

  predicate EndsIndentlessItem(t: Token) {
    t.BlockEntryToken? || t.KeyToken? || t.ValueToken? || t.BlockEndToken?
  }

  predicate EndsBlockPair(t: Token) {
    t.KeyToken? || t.ValueToken? || t.BlockEndToken?
  }

  predicate EndsPairInSequence(t: Token) {
    t.FlowEntryToken? || t.FlowSequenceEndToken?
  }

  predicate EndsFlowKey(t: Token) {
    t.ValueToken? || t.FlowEntryToken? || t.FlowMappingEndToken?
  }

  predicate EndsFlowValue(t: Token) {
    t.FlowEntryToken? || t.FlowMappingEndToken?
  }

  function ParseBlockSequenceEntry(m0: Machine, first: bool): Outcome {
    var m := if first then Open(m0) else m0;
    match Peek(m)
    case None => NoToken(m)
    case Some(BlockEntryToken) => NodeBehind(m, EndsBlockItem, BlockSequenceEntryState, true, false)
    case Some(BlockEndToken) => Close(m, SequenceEndEvent)
    case Some(_) => Fail(PopMark(m))
  }

  function ParseIndentlessSequenceEntry(m: Machine): Outcome {
    match Peek(m)
    case None => NoToken(m)
    case Some(BlockEntryToken) => NodeBehind(m, EndsIndentlessItem, IndentlessSequenceEntryState, true, false)
    case Some(_) => Emit(PopState(m), SequenceEndEvent)
  }

  function ParseBlockMappingKey(m0: Machine, first: bool): Outcome {
    var m := if first then Open(m0) else m0;
    match Peek(m)
    case None => NoToken(m)
    case Some(KeyToken) => NodeBehind(m, EndsBlockPair, BlockMappingValueState, true, true)
    case Some(BlockEndToken) => Close(m, MappingEndEvent)
    case Some(_) => Fail(PopMark(m))
  }

  function ParseBlockMappingValue(m: Machine): Outcome {
    match Peek(m)
    case None => NoToken(m)
    case Some(ValueToken) => NodeBehind(m, EndsBlockPair, BlockMappingKeyState, true, true)
    case Some(_) => EmitEmpty(m.(state := BlockMappingKeyState))
  }

  function ParseFlowSequenceEntry(m0: Machine, first: bool): Outcome {
    var m := if first then Open(m0) else m0;
    match Peek(m)
    case None => NoToken(m)
    case Some(t) =>
      if t.FlowSequenceEndToken? then Close(m, SequenceEndEvent)
      else if first then FlowSequenceItem(m, t)
      else if !t.FlowEntryToken? then Fail(PopMark(m))
      else
        var m1 := Skip(m);
        match Peek(m1)
        case None => NoToken(m1)
        case Some(u) => FlowSequenceItem(m1, u)
  }

  /** An item of a flow sequence, where a key opens a mapping of one pair, or the end after a comma. */
  function FlowSequenceItem(m: Machine, t: Token): Outcome {
    if t.KeyToken? then
      Emit(Skip(m.(state := FlowSequenceEntryMappingKeyState)), MappingStartEvent("", "", true, FlowStyle))
    else if !t.FlowSequenceEndToken? then ParseNode(Push(m, FlowSequenceEntryState), false, false)
    else Close(m, SequenceEndEvent)
  }

  /** The token behind an absent key is skipped, whatever it is. */
  function ParseFlowSequenceEntryMappingKey(m: Machine): Outcome {
    match Peek(m)
    case None => NoToken(m)
    case Some(t) =>
      if !t.ValueToken? && !t.FlowEntryToken? && !t.FlowSequenceEndToken? then
        ParseNode(Push(m, FlowSequenceEntryMappingValueState), false, false)
      else EmitEmpty(Skip(m).(state := FlowSequenceEntryMappingValueState))
  }

  function ParseFlowSequenceEntryMappingValue(m: Machine): Outcome {
    match Peek(m)
    case None => NoToken(m)
    case Some(ValueToken) => NodeBehind(m, EndsPairInSequence, FlowSequenceEntryMappingEndState, false, false)
    case Some(_) => EmitEmpty(m.(state := FlowSequenceEntryMappingEndState))
  }

  function ParseFlowSequenceEntryMappingEnd(m: Machine): Outcome {
    match Peek(m)
    case None => NoToken(m)
    case Some(_) => Emit(m.(state := FlowSequenceEntryState), MappingEndEvent)
  }

  function ParseFlowMappingKey(m0: Machine, first: bool): Outcome {
    var m := if first then Open(m0) else m0;
    match Peek(m)
    case None => NoToken(m)
    case Some(t) =>
      if t.FlowMappingEndToken? then Close(m, MappingEndEvent)
      else if first then FlowMappingItem(m, t)
      else if !t.FlowEntryToken? then Fail(PopMark(m))
      else
        var m1 := Skip(m);
        match Peek(m1)
        case None => NoToken(m1)
        case Some(u) => FlowMappingItem(m1, u)
  }

  function FlowMappingItem(m: Machine, t: Token): Outcome {
    if t.KeyToken? then NodeBehind(m, EndsFlowKey, FlowMappingValueState, false, false)
    else if !t.FlowMappingEndToken? then ParseNode(Push(m, FlowMappingEmptyValueState), false, false)
    else Close(m, MappingEndEvent)
  }

  function ParseFlowMappingValue(m: Machine, empty: bool): Outcome {
    match Peek(m)
    case None => NoToken(m)
    case Some(t) =>
      if empty || !t.ValueToken? then EmitEmpty(m.(state := FlowMappingKeyState))
      else NodeBehind(m, EndsFlowValue, FlowMappingKeyState, false, false)
  }

  // ---------------------------------------------------------------- the dispatcher

  function StateMachine(m: Machine): Outcome {
    match m.state
    case StreamStartState => ParseStreamStart(m)
    case ImplicitDocumentStartState => ParseDocumentStart(m, true)
    case DocumentStartState => ParseDocumentStart(m, false)
    case DocumentContentState => ParseDocumentContent(m)
    case DocumentEndState => ParseDocumentEnd(m)
    case BlockNodeState => ParseNode(m, true, false)
    case BlockNodeOrIndentlessSequenceState => ParseNode(m, true, true)
    case FlowNodeState => ParseNode(m, false, false)
    case BlockSequenceFirstEntryState => ParseBlockSequenceEntry(m, true)
    case BlockSequenceEntryState => ParseBlockSequenceEntry(m, false)
    case IndentlessSequenceEntryState => ParseIndentlessSequenceEntry(m)
    case BlockMappingFirstKeyState => ParseBlockMappingKey(m, true)
    case BlockMappingKeyState => ParseBlockMappingKey(m, false)
    case BlockMappingValueState => ParseBlockMappingValue(m)
    case FlowSequenceFirstEntryState => ParseFlowSequenceEntry(m, true)
    case FlowSequenceEntryState => ParseFlowSequenceEntry(m, false)
    case FlowSequenceEntryMappingKeyState => ParseFlowSequenceEntryMappingKey(m)
    case FlowSequenceEntryMappingValueState => ParseFlowSequenceEntryMappingValue(m)
    case FlowSequenceEntryMappingEndState => ParseFlowSequenceEntryMappingEnd(m)
    case FlowMappingFirstKeyState => ParseFlowMappingKey(m, true)
    case FlowMappingKeyState => ParseFlowMappingKey(m, false)
    case FlowMappingValueState => ParseFlowMappingValue(m, false)
    case FlowMappingEmptyValueState => ParseFlowMappingValue(m, true)
    case EndState => Outcome(m.(error := Panic), None)
  }

  /** The next event, if there is one: none after the stream end or an error. */
  function Parse(m: Machine): Outcome {
    if m.ended || m.error != NoError || m.state == EndState then Outcome(m, None) else StateMachine(m)
  }
}
