/**
 What the parser does on the tokens of a text, in whatever presentation.  If the text is readable, its steps produce
 exactly the events of the text and stop right behind it; if it is not, they come to an error or lose a bracket.
 */
module YamlTextParse {
  import opened Common
  import opened YamlEvents
  import opened YamlParse
  import opened YamlParseSafety
  import opened YamlText

  // ---------------------------------------------------------------- runs

  function Iterate(r: Run, n: nat): Run
    decreases n
  {
    if n == 0 then r else Iterate(Next(r), n - 1)
  }

  /** About to skip the bracket that should close the flow sequence. */
  predicate LosesBracket(m: Machine) {
    && Ready(m) && m.state == FlowSequenceEntryMappingKeyState
    && m.pos < |m.tokens| && m.tokens[m.pos].FlowSequenceEndToken?
  }

  predicate Broken(m: Machine) {
    m.error == ParserError || LosesBracket(m)
  }

  predicate Meets(r: Run, good: bool, s: Run) {
    if good then r == s else Broken(r.m)
  }

  /** The run comes to `s`, or else it breaks. */
  ghost predicate Comes(r: Run, good: bool, s: Run) {
    exists n: nat :: Meets(Iterate(r, n), good, s)
  }

  lemma Stays(r: Run)
    ensures Comes(r, true, r)
  {
    assert Meets(Iterate(r, 0), true, r);
  }

  lemma Breaks(r: Run, s: Run)
    requires Broken(r.m)
    ensures Comes(r, false, s)
  {
    assert Meets(Iterate(r, 0), false, s);
  }

  lemma {:induction false} IterateSum(r: Run, n: nat, k: nat)
    ensures Iterate(r, n + k) == Iterate(Iterate(r, n), k)
    decreases n
  {
    hide Next;
    if n > 0 { IterateSum(Next(r), n - 1, k); }
  }

  lemma Then(r: Run, g: bool, s: Run, h: bool, t: Run)
    requires Comes(r, g, s) && Comes(s, h, t)
    ensures Comes(r, g && h, t)
  {
    hide Iterate, Broken;
    var n: nat :| Meets(Iterate(r, n), g, s);
    if g {
      var k: nat :| Meets(Iterate(s, k), h, t);
      IterateSum(r, n, k);
      assert Meets(Iterate(r, n + k), h, t);
    } else {
      assert Meets(Iterate(r, n), false, t);
    }
  }

  /** A machine that can go on. */
  predicate Ready(m: Machine) {
    m.error == NoError && !m.ended && m.pos <= |m.tokens| && !m.state.EndState?
  }

  lemma StepThen(m: Machine, es: seq<Event>, o: Outcome, good: bool, t: Run)
    requires Ready(m) && StateMachine(m) == o && o.event.Some? && Comes(Run(o.m, es + [o.event.value]), good, t)
    ensures Comes(Run(m, es), good, t)
  {
    hide StateMachine, Iterate, Meets;
    var s := Run(o.m, es + [o.event.value]);
    assert Next(Run(m, es)) == s;
    OneStep(Run(m, es));
    Then(Run(m, es), true, s, good, t);
  }

  lemma OneStep(r: Run)
    ensures Comes(r, true, Next(r))
  {
    hide Next;
    assert Iterate(Next(r), 0) == Next(r);
    assert Meets(Iterate(r, 1), true, Next(r));
  }

  /** A step that ends in an error. */
  lemma FailsHere(m: Machine, es: seq<Event>, t: Run)
    requires Ready(m) && StateMachine(m).event == None && StateMachine(m).m.error == ParserError
    ensures Comes(Run(m, es), false, t)
  {
    hide StateMachine;
    OneStep(Run(m, es));
    Breaks(Next(Run(m, es)), t);
    Then(Run(m, es), true, Next(Run(m, es)), false, t);
  }

  // ---------------------------------------------------------------- positions

  function Rest(m: Machine): seq<Token> {
    if m.pos <= |m.tokens| then m.tokens[m.pos..] else []
  }

  function Ahead(m: Machine, k: nat): Machine {
    m.(pos := m.pos + k, ended := false)
  }

  /** Behind a node: the state on top comes back. */
  function Returned(m: Machine, k: nat): Machine
    requires m.states != []
  {
    Ahead(m, k).(state := Last(m.states), states := Init(m.states))
  }

  /** Behind a marked collection: its mark goes as well. */
  function Left(m: Machine, k: nat): Machine
    requires m.states != [] && m.marks != []
  {
    Returned(m, k).(marks := Init(m.marks))
  }

  predicate Closes(t: Token) {
    !Begins(t) && !t.StreamStartToken?
  }

  /** What comes behind a text. */
  predicate Follows(rest: seq<Token>) {
    rest != [] && Closes(rest[0])
  }

  lemma RestAhead(m: Machine, a: seq<Token>, b: seq<Token>)
    requires m.pos <= |m.tokens| && Rest(m) == a + b
    ensures Rest(Ahead(m, |a|)) == b && m.pos + |a| <= |m.tokens|
    ensures a != [] ==> m.pos < |m.tokens| && m.tokens[m.pos] == a[0]
    ensures a == [] && b != [] ==> m.pos < |m.tokens| && m.tokens[m.pos] == b[0]
  {
    assert |Rest(m)| == |m.tokens| - m.pos;
    assert m.tokens[m.pos..][|a|..] == m.tokens[m.pos + |a|..];
    if a != [] { assert Rest(m)[0] == a[0]; }
    if a == [] && b != [] { assert Rest(m)[0] == b[0]; }
  }

  // ---------------------------------------------------------------- properties

  predicate IsProperty(t: Token) {
    t.AnchorToken? || t.TagToken?
  }

  lemma RestAt(m: Machine, ts: seq<Token>, i: nat)
    requires m.pos <= |m.tokens| && Rest(m) == ts && i < |ts|
    ensures m.pos + i < |m.tokens| && m.tokens[m.pos + i] == ts[i]
  {
    assert Rest(m)[i] == ts[i];
  }

  lemma ReadNone(m: Machine)
    requires m.pos < |m.tokens| && !IsProperty(m.tokens[m.pos])
    ensures ReadProperties(m) == Properties(m, "", None)
  {
  }

  lemma ReadOne(m: Machine)
    requires Ready(m) && m.pos + 1 < |m.tokens| && IsProperty(m.tokens[m.pos]) && !IsProperty(m.tokens[m.pos + 1])
    ensures var t := m.tokens[m.pos];
            ReadProperties(m) == if t.AnchorToken? then Properties(Ahead(m, 1), t.name, None)
                                 else Properties(Ahead(m, 1), "", Some((t.handle, t.suffix)))
  {
  }

  lemma ReadTwo(m: Machine)
    requires Ready(m) && m.pos + 1 < |m.tokens|
    requires var t, u := m.tokens[m.pos], m.tokens[m.pos + 1];
             (t.AnchorToken? && u.TagToken?) || (t.TagToken? && u.AnchorToken?)
    ensures var t, u := m.tokens[m.pos], m.tokens[m.pos + 1];
            ReadProperties(m) == if t.AnchorToken? then Properties(Ahead(m, 2), t.name, Some((u.handle, u.suffix)))
                                 else Properties(Ahead(m, 2), u.name, Some((t.handle, t.suffix)))
  {
  }

  lemma PropsRead(m: Machine, p: Props, rest: seq<Token>)
    requires Ready(m) && Rest(m) == PropsTokens(p) + rest && rest != [] && !IsProperty(rest[0])
    ensures ReadProperties(m) == Properties(Ahead(m, |PropsTokens(p)|), p.anchor, p.tag)
    ensures Rest(Ahead(m, |PropsTokens(p)|)) == rest
  {
    hide ReadProperties, PropsTokens, Rest;
    var ts := PropsTokens(p);
    RestAhead(m, ts, rest);
    RestAt(m, ts + rest, 0);
    assert (ts + rest)[|ts|] == rest[0];
    RestAt(m, ts + rest, |ts|);
    PropsShape(p);
    if |ts| == 0 {
      ReadNone(m);
    } else if |ts| == 1 {
      ReadOne(m);
    } else {
      RestAt(m, ts + rest, 1);
      ReadTwo(m);
    }
  }

  lemma PropsShape(p: Props)
    ensures var ts := PropsTokens(p);
            && (|ts| == 0 ==> p.anchor == "" && p.tag == None)
            && (|ts| == 1 ==> (ts[0] == AnchorToken(p.anchor) && p.tag == None)
                              || (p.anchor == "" && p.tag.Some? && ts[0] == TagToken(p.tag.value.0, p.tag.value.1)))
            && (|ts| == 2 ==> p.tag.Some? && var t := TagToken(p.tag.value.0, p.tag.value.1);
                              || (ts[0] == AnchorToken(p.anchor) && ts[1] == t)
                              || (ts[1] == AnchorToken(p.anchor) && ts[0] == t))
            && |ts| <= 2
  {
  }

  /** A node with properties is parsed by its content. */
  lemma ContentRead(m: Machine, p: Props, rest: seq<Token>, block: bool, indentless: bool)
    requires Ready(m) && Rest(m) == PropsTokens(p) + rest && rest != [] && !IsProperty(rest[0])
    requires PropsTokens(p) == [] ==> !rest[0].AliasToken?
    requires Resolve(m.directives, p.tag).Some?
    ensures ParseNode(m, block, indentless) ==
            ParseContent(Ahead(m, |PropsTokens(p)|), rest[0], p.anchor, Full(p, m.directives), block, indentless)
    ensures Rest(Ahead(m, |PropsTokens(p)|)) == rest
  {
    hide ParseContent, Resolve, ReadProperties;
    PropsRead(m, p, rest);
    var n := Ahead(m, |PropsTokens(p)|);
    RestAhead(m, PropsTokens(p), rest);
    RestAhead(n, [], rest);
    NoAliasFirst(p);
  }

  lemma NoAliasFirst(p: Props)
    ensures PropsTokens(p) != [] ==> !PropsTokens(p)[0].AliasToken?
  {
  }

  // ---------------------------------------------------------------- nodes

  /** What parsing a node comes to: an event now, and the rest of the events in further steps. */
  ghost predicate NodeRead(m: Machine, o: Outcome, es: seq<Event>, t: Text)
    requires m.states != []
  {
    && o.event.Some?
    && Comes(Run(o.m, es + [o.event.value]), Readable(t), Run(Returned(m, |Tokens(t)|), es + Events(t, m.directives)))
  }

  predicate NodeReady(m: Machine, t: Text, rest: seq<Token>, block: bool, indentless: bool) {
    && Ready(m) && m.states != [] && Rest(m) == Tokens(t) + rest && Follows(rest)
    && (indentless ==> EndsBlockPair(rest[0])) && YamlText.Fits(t, m.directives, block, indentless)
  }

  lemma NowRead(m: Machine, o: Outcome, es: seq<Event>, t: Text)
    requires m.states != [] && o.event.Some? && o.m == Returned(m, |Tokens(t)|) &&
             Events(t, m.directives) == [o.event.value]
    requires Readable(t)
    ensures NodeRead(m, o, es, t)
  {
    hide Tokens, Events;
    Stays(Run(o.m, es + [o.event.value]));
  }

  lemma AliasRead(m: Machine, t: Text, rest: seq<Token>, block: bool, indentless: bool, es: seq<Event>)
    requires NodeReady(m, t, rest, block, indentless) && t.AliasText?
    ensures NodeRead(m, ParseNode(m, block, indentless), es, t)
  {
    hide NodeRead, ReadProperties;
    RestAhead(m, Tokens(t), rest);
    NowRead(m, ParseNode(m, block, indentless), es, t);
  }

  lemma ScalarRead(m: Machine, t: Text, rest: seq<Token>, block: bool, indentless: bool, es: seq<Event>)
    requires NodeReady(m, t, rest, block, indentless) && t.ScalarText?
    ensures NodeRead(m, ParseNode(m, block, indentless), es, t)
  {
    hide NodeRead, ReadProperties, ParseNode, PropsTokens, Resolve, Rest, Full;
    var p, c := t.props, ScalarToken(t.value, t.style);
    assert Tokens(t) + rest == PropsTokens(p) + ([c] + rest);
    ContentRead(m, p, [c] + rest, block, indentless);
    var n := Ahead(m, |PropsTokens(p)|);
    RestAhead(m, PropsTokens(p), [c] + rest);
    RestAhead(n, [c], rest);
    NowRead(m, ParseNode(m, block, indentless), es, t);
  }

  lemma BareRead(m: Machine, t: Text, rest: seq<Token>, block: bool, indentless: bool, es: seq<Event>)
    requires NodeReady(m, t, rest, block, indentless) && t.BareText?
    ensures NodeRead(m, ParseNode(m, block, indentless), es, t)
  {
    hide NodeRead, ReadProperties, ParseNode, PropsTokens, Resolve, Rest, Full;
    ContentRead(m, t.props, rest, block, indentless);
    NowRead(m, ParseNode(m, block, indentless), es, t);
  }

  /** A collection's opening token has been seen: the state is FIRST, and the token is still there. */
  lemma OpeningRead(m: Machine, p: Props, c: Token, rest: seq<Token>, block: bool, indentless: bool)
    requires Ready(m) && Rest(m) == PropsTokens(p) + ([c] + rest) && Resolve(m.directives, p.tag).Some?
    requires c.FlowSequenceStartToken? || c.FlowMappingStartToken?
             || (block && (c.BlockSequenceStartToken? || c.BlockMappingStartToken?))
    ensures var n := Ahead(m, |PropsTokens(p)|);
            && Rest(n) == [c] + rest && n.pos < |n.tokens| && n.tokens[n.pos] == c
            && ParseNode(m, block, indentless) == Emit(n.(state := FirstOf(c)), StartOf(c, p, m.directives))
  {
    hide PropsTokens, ParseNode, Resolve, Rest, Full;
    ContentRead(m, p, [c] + rest, block, indentless);
    RestAhead(m, PropsTokens(p), [c] + rest);
    RestAhead(Ahead(m, |PropsTokens(p)|), [c], rest);
  }

  function FirstOf(c: Token): State {
    match c
    case FlowSequenceStartToken => FlowSequenceFirstEntryState
    case FlowMappingStartToken => FlowMappingFirstKeyState
    case BlockSequenceStartToken => BlockSequenceFirstEntryState
    case _ => BlockMappingFirstKeyState
  }

  function StartOf(c: Token, p: Props, ds: seq<TagDirective>): Event {
    match c
    case FlowSequenceStartToken => SequenceOf(p, ds, FlowStyle)
    case FlowMappingStartToken => MappingOf(p, ds, FlowStyle)
    case BlockSequenceStartToken => SequenceOf(p, ds, BlockStyle)
    case _ => MappingOf(p, ds, BlockStyle)
  }

  // ---------------------------------------------------------------- places

  /** Behind an indicator: a node or nothing. */
  predicate PlaceReady(m: Machine, place: Place, rest: seq<Token>, ends: Token -> bool, block: bool, indentless: bool) {
    && Ready(m) && m.pos < |m.tokens| && !m.tokens[m.pos].StreamEndToken?
    && Rest(m)[1..] == PlaceTokens(place) + rest && Follows(rest)
    && (indentless ==> EndsBlockPair(rest[0])) && PlaceFits(place, m.directives, block, indentless)
    && (place.Absent? ==> ends(rest[0]))
    && (place.Present? ==> Tokens(place.text) != [] && !ends(Tokens(place.text)[0]))
  }

  ghost predicate PlaceRead(m: Machine, o: Outcome, es: seq<Event>, place: Place, next: State) {
    && o.event.Some?
    && Comes(Run(o.m, es + [o.event.value]), PlaceReadable(place),
             Run(Ahead(m, 1 + |PlaceTokens(place)|).(state := next), es + PlaceEvents(place, m.directives)))
  }

  lemma SkipRest(m: Machine)
    requires Ready(m) && m.pos < |m.tokens| && !m.tokens[m.pos].StreamEndToken?
    ensures Skip(m) == Ahead(m, 1) && Ready(Skip(m)) && Rest(Skip(m)) == Rest(m)[1..]
  {
  }

  lemma AbsentRead(m: Machine, place: Place, rest: seq<Token>, ends: Token -> bool, next: State, block: bool,
                   indentless: bool, es: seq<Event>)
    requires PlaceReady(m, place, rest, ends, block, indentless) && place.Absent?
    ensures PlaceRead(m, NodeBehind(m, ends, next, block, indentless), es, place, next)
  {
    hide ParseNode, Begins, Rest, Tokens, Events, Comes, Skip, Closes;
    SkipRest(m);
    assert [] + rest == rest;
    RestAhead(Skip(m), [], rest);
    var o := NodeBehind(m, ends, next, block, indentless);
    Stays(Run(o.m, es + [o.event.value]));
  }

  /** Behind the indicator, with the next state pushed, the node is ready to be parsed. */
  lemma NodePushed(m: Machine, place: Place, rest: seq<Token>, ends: Token -> bool, next: State, block: bool,
                   indentless: bool)
    requires PlaceReady(m, place, rest, ends, block, indentless) && place.Present?
    ensures var n := Push(Skip(m), next);
            && NodeReady(n, place.text, rest, block, indentless) && n.directives == m.directives
            && NodeBehind(m, ends, next, block, indentless) == ParseNode(n, block, indentless)
            && Skip(m) == Ahead(m, 1)
  {
    hide ParseNode, Tokens, Begins, YamlText.Fits, Closes;
    SkipRest(m);
    hide Rest;
    RestAhead(Skip(m), Tokens(place.text), rest);
    RestPushed(Skip(m), next);
  }

  lemma RestPushed(m: Machine, next: State)
    ensures Rest(Push(m, next)) == Rest(m)
  {
  }

  lemma {:induction false} PresentRead(m: Machine, place: Place, rest: seq<Token>, ends: Token -> bool, next: State,
                                       block: bool, indentless: bool, es: seq<Event>)
    requires PlaceReady(m, place, rest, ends, block, indentless) && place.Present?
    ensures PlaceRead(m, NodeBehind(m, ends, next, block, indentless), es, place, next)
    decreases place, 0
  {
    hide ParseNode, Comes, Tokens, Events, NodeBehind, Rest, PlaceReady, NodeReady;
    NodePushed(m, place, rest, ends, next, block, indentless);
    TextIsRead(Push(Skip(m), next), place.text, rest, block, indentless, es);
    PushReturned(m, next, |Tokens(place.text)|);
  }

  lemma {:induction false} PlaceIsRead(m: Machine, place: Place, rest: seq<Token>, ends: Token -> bool, next: State,
                                       block: bool, indentless: bool, es: seq<Event>)
    requires PlaceReady(m, place, rest, ends, block, indentless)
    ensures PlaceRead(m, NodeBehind(m, ends, next, block, indentless), es, place, next)
    decreases place, 1
  {
    hide PlaceReady, PlaceRead, NodeBehind;
    if place.Absent? {
      AbsentRead(m, place, rest, ends, next, block, indentless, es);
    } else {
      PresentRead(m, place, rest, ends, next, block, indentless, es);
    }
  }

  lemma PushReturned(m: Machine, next: State, k: nat)
    ensures Returned(Push(Ahead(m, 1), next), k) == Ahead(m, 1 + k).(state := next)
  {
    assert Init(m.states + [next]) == m.states;
  }

  /** An indicator and a place behind it. */
  lemma PlaceBehind(n: Machine, ind: Token, place: Place, tail: seq<Token>, ends: Token -> bool, block: bool,
                    indentless: bool)
    requires Ready(n) && Rest(n) == [ind] + (PlaceTokens(place) + tail) && !ind.StreamEndToken?
    requires Follows(tail) && (indentless ==> EndsBlockPair(tail[0])) &&
             PlaceFits(place, n.directives, block, indentless)
    requires place.Absent? ==> ends(tail[0])
    requires (forall t :: Begins(t) ==> !ends(t)) && (indentless ==> !ends(BlockEntryToken))
    ensures PlaceReady(n, place, tail, ends, block, indentless) && n.pos < |n.tokens| && n.tokens[n.pos] == ind
    ensures var a := Ahead(n, 1 + |PlaceTokens(place)|);
            Ready(a) && Rest(a) == tail && a.directives == n.directives
  {
    hide Tokens, Begins, YamlText.Fits, Closes;
    RestAhead(n, [ind], PlaceTokens(place) + tail);
    RestAhead(n, [ind] + PlaceTokens(place), tail);
    assert [ind] + (PlaceTokens(place) + tail) == [ind] + PlaceTokens(place) + tail;
    assert ([ind] + (PlaceTokens(place) + tail))[1..] == PlaceTokens(place) + tail;
    if place.Present? { TextBegins(place.text, n.directives, block, indentless); }
  }

  /** A step that is a place behind an indicator, and then the rest of the run. */
  lemma {:induction false} PlaceThen(m: Machine, n: Machine, place: Place, tail: seq<Token>, ends: Token -> bool,
                                     next: State,
                                     block: bool, indentless: bool, es: seq<Event>, good: bool, t: Run)
    requires PlaceReady(n, place, tail, ends, block, indentless) && Ready(m)
    requires StateMachine(m) == NodeBehind(n, ends, next, block, indentless)
    requires Comes(Run(Ahead(n, 1 + |PlaceTokens(place)|).(state := next), es + PlaceEvents(place, n.directives)),
                   good, t)
    ensures Comes(Run(m, es), PlaceReadable(place) && good, t)
    decreases place, 2
  {
    hide PlaceReady, StateMachine, NodeBehind, Comes, Ready, PlaceTokens, PlaceEvents;
    PlaceIsRead(n, place, tail, ends, next, block, indentless, es);
    var o := NodeBehind(n, ends, next, block, indentless);
    Then(Run(o.m, es + [o.event.value]), PlaceReadable(place),
         Run(Ahead(n, 1 + |PlaceTokens(place)|).(state := next), es + PlaceEvents(place, n.directives)), good, t);
    StepThen(m, es, o, PlaceReadable(place) && good, t);
  }

  /** A step with an event of its own, and then the rest of the run. */
  lemma EventThen(m: Machine, es: seq<Event>, n: Machine, e: Event, good: bool, t: Run)
    requires Ready(m) && StateMachine(m) == Outcome(n, Some(e)) && Comes(Run(n, es + [e]), good, t)
    ensures Comes(Run(m, es), good, t)
  {
    hide StateMachine, Comes, Ready;
    StepThen(m, es, Outcome(n, Some(e)), good, t);
  }

  /** A step that parses a node, and then the rest of the run. */
  lemma {:induction false} NodeThen(m: Machine, a: Machine, t: Text, rest: seq<Token>, next: State, block: bool,
                                    indentless: bool,
                                    es: seq<Event>, good: bool, final: Run)
    requires NodeReady(Push(a, next), t, rest, block, indentless) && Ready(m)
    requires StateMachine(m) == ParseNode(Push(a, next), block, indentless)
    requires Comes(Run(Ahead(a, |Tokens(t)|).(state := next), es + Events(t, a.directives)), good, final)
    ensures Comes(Run(m, es), Readable(t) && good, final)
    decreases t, 4
  {
    hide NodeReady, StateMachine, ParseNode, Comes, Ready, Tokens, Events;
    TextIsRead(Push(a, next), t, rest, block, indentless, es);
    var o := ParseNode(Push(a, next), block, indentless);
    PushReturnedHere(a, next, |Tokens(t)|);
    Then(Run(o.m, es + [o.event.value]), Readable(t),
         Run(Ahead(a, |Tokens(t)|).(state := next), es + Events(t, a.directives)), good, final);
    StepThen(m, es, o, Readable(t) && good, final);
  }

  /** The same where the machine itself waits for the node. */
  lemma TextThen(m: Machine, t: Text, rest: seq<Token>, block: bool, indentless: bool, es: seq<Event>, good: bool,
                 final: Run)
    requires NodeReady(m, t, rest, block, indentless) && StateMachine(m) == ParseNode(m, block, indentless)
    requires Comes(Run(Returned(m, |Tokens(t)|), es + Events(t, m.directives)), good, final)
    ensures Comes(Run(m, es), Readable(t) && good, final)
  {
    hide StateMachine, ParseNode, Comes, Ready, Tokens, Events, YamlText.Fits, Follows, Rest;
    TextIsRead(m, t, rest, block, indentless, es);
    var o := ParseNode(m, block, indentless);
    Then(Run(o.m, es + [o.event.value]), Readable(t), Run(Returned(m, |Tokens(t)|), es + Events(t, m.directives)),
         good, final);
    StepThen(m, es, o, Readable(t) && good, final);
  }

  lemma PushReturnedHere(a: Machine, next: State, k: nat)
    ensures Returned(Push(a, next), k) == Ahead(a, k).(state := next)
  {
    assert Init(a.states + [next]) == a.states;
  }

  /** A node at the position itself. */
  lemma NodeHere(a: Machine, t: Text, rest: seq<Token>, next: State, block: bool, indentless: bool)
    requires Ready(a) && Rest(a) == Tokens(t) + rest && Follows(rest) && (indentless ==> EndsBlockPair(rest[0]))
    requires YamlText.Fits(t, a.directives, block, indentless)
    ensures NodeReady(Push(a, next), t, rest, block, indentless)
    ensures var b := Ahead(a, |Tokens(t)|); Ready(b) && Rest(b) == rest
    ensures a.pos < |a.tokens| && (Begins(a.tokens[a.pos]) || (indentless && a.tokens[a.pos].BlockEntryToken?))
  {
    hide Tokens, YamlText.Fits, Closes, Begins;
    TextBegins(t, a.directives, block, indentless);
    RestAhead(a, Tokens(t), rest);
    RestPushed(a, next);
  }

  /** A state that waits for VALUE where there is none. */
  lemma NoValueThen(m: Machine, more: seq<Token>, next: State, es: seq<Event>, good: bool, t: Run)
    requires Ready(m) && m.pos < |m.tokens| && Rest(m) == ValueTokens(NoValue) + more && more != []
    requires !more[0].ValueToken?
    requires !m.tokens[m.pos].ValueToken? ==> StateMachine(m) == EmitEmpty(m.(state := next))
    requires Comes(Run(Ahead(m, 0).(state := next), es + ValueEvents(NoValue, m.directives)), good, t)
    ensures Comes(Run(m, es), good, t)
  {
    hide Comes, StateMachine;
    assert Rest(m) == more;
    assert more[0] == m.tokens[m.pos];
    EventThen(m, es, m.(state := next), Blank, good, t);
  }

  /** A state that waits for VALUE: with it comes a place, without it an empty scalar. */
  lemma {:induction false} ValueThen(m: Machine, v: Value, more: seq<Token>, ends: Token -> bool, next: State,
                                     block: bool, indentless: bool, es: seq<Event>, good: bool, t: Run)
    requires Ready(m) && m.pos < |m.tokens| && Rest(m) == ValueTokens(v) + more && Follows(more)
    requires v.NoValue? ==> !more[0].ValueToken?
    requires StateMachine(m) == if m.tokens[m.pos].ValueToken? then NodeBehind(m, ends, next, block, indentless)
                                else EmitEmpty(m.(state := next))
    requires ValueFits(v, m.directives, block, indentless) && ends(more[0]) && (indentless ==> EndsBlockPair(more[0]))
    requires (forall t :: Begins(t) ==> !ends(t)) && (indentless ==> !ends(BlockEntryToken))
    requires Comes(Run(Ahead(m, |ValueTokens(v)|).(state := next), es + ValueEvents(v, m.directives)), good, t)
    ensures Comes(Run(m, es), ValueReadable(v) && good, t)
    decreases v, 3
  {
    hide Comes, StateMachine, NodeBehind, PlaceTokens, PlaceEvents, Closes, Begins, YamlText.Fits;
    if v.NoValue? {
      NoValueThen(m, more, next, es, good, t);
    } else {
      assert ValueTokens(v) + more == [ValueToken] + (PlaceTokens(v.place) + more);
      PlaceBehind(m, ValueToken, v.place, more, ends, block, indentless);
      PlaceThen(m, m, v.place, more, ends, next, block, indentless, es, good, t);
    }
  }

  // ---------------------------------------------------------------- collections

  lemma CloseIsLeft(n: Machine, e: Event)
    requires Ready(n) && n.states != [] && n.marks != [] && n.pos < |n.tokens| && !n.tokens[n.pos].StreamEndToken?
    ensures Close(n, e) == Outcome(Left(n, 1), Some(e))
  {
  }

  /** A marked collection: entered, or about to be. */
  predicate CollectionReady(m: Machine, first: bool, ofFirst: State, own: State, tail: seq<Token>) {
    && Ready(m) && m.states != [] && m.state == (if first then ofFirst else own)
    && (first ==> m.pos < |m.tokens| && !m.tokens[m.pos].StreamEndToken?)
    && (!first ==> m.marks != [])
    && Rest(Inner(m, first)) == tail
  }

  function Inner(m: Machine, first: bool): Machine {
    if first then Open(m) else m
  }

  /** The machine the collection's own productions work on. */
  lemma InnerReady(m: Machine, first: bool, ofFirst: State, own: State, tail: seq<Token>)
    requires CollectionReady(m, first, ofFirst, own, tail)
    ensures var n := Inner(m, first);
            && Ready(m) && Ready(n) && n.states != [] && n.marks != [] && Rest(n) == tail
            && n.directives == m.directives
  {
  }

  lemma CollectionOpened(m: Machine, k: nat, c: Token, own: State, tail: seq<Token>)
    requires Ready(m) && m.states != [] && m.pos + k < |m.tokens| && m.tokens[m.pos + k] == c &&
             Rest(Ahead(m, k)) == [c] + tail
    requires !c.StreamEndToken?
    ensures var n := Ahead(m, k).(state := FirstOf(c));
            && CollectionReady(n, true, FirstOf(c), own, tail) && n.directives == m.directives
            && forall j: nat :: Left(Inner(n, true), j) == Returned(m, k + 1 + j)
  {
    var n := Ahead(m, k).(state := FirstOf(c));
    assert Rest(Open(n)) == Rest(n)[1..];
    assert ([c] + tail)[1..] == tail;
  }

  lemma {:induction false} TextIsRead(m: Machine, t: Text, rest: seq<Token>, block: bool, indentless: bool,
                                      es: seq<Event>)
    requires NodeReady(m, t, rest, block, indentless)
    ensures NodeRead(m, ParseNode(m, block, indentless), es, t)
    decreases t, 3
  {
    hide NodeReady, NodeRead, ParseNode;
    match t
    case AliasText(_) => AliasRead(m, t, rest, block, indentless, es);
    case ScalarText(_, _, _) => ScalarRead(m, t, rest, block, indentless, es);
    case BareText(_) => BareRead(m, t, rest, block, indentless, es);
    case BlockSequenceText(_, _) => BlockSequenceRead(m, t, rest, block, indentless, es);
    case IndentlessText(_, _) => IndentlessRead(m, t, rest, block, indentless, es);
    case BlockMappingText(_, _) => BlockMappingRead(m, t, rest, block, indentless, es);
    case FlowSequenceText(_, _) => FlowSequenceRead(m, t, rest, block, indentless, es);
    case FlowMappingText(_, _) => FlowMappingRead(m, t, rest, block, indentless, es);
  }

  lemma {:induction false} BlockSequenceRead(m: Machine, t: Text, rest: seq<Token>, block: bool, indentless: bool,
                                             es: seq<Event>)
    requires NodeReady(m, t, rest, block, indentless) && t.BlockSequenceText?
    ensures NodeRead(m, ParseNode(m, block, indentless), es, t)
    decreases t, 2
  {
    hide PropsTokens, ParseNode, Resolve, Comes, ItemsTokens, ItemsEvents, Rest, Follows, CollectionReady, Tokens,
      Events, YamlText.Fits, Full, Returned, Left;
    var p, c, tail := t.props, BlockSequenceStartToken, ItemsTokens(t.items) + ([BlockEndToken] + rest);
    var start := StartOf(c, p, m.directives);
    BlockSequenceShape(t, m.directives, rest, block, indentless);
    OpeningRead(m, p, c, tail, block, indentless);
    CollectionOpened(m, |PropsTokens(p)|, c, BlockSequenceEntryState, tail);
    ItemsRead(Ahead(m, |PropsTokens(p)|).(state := FirstOf(c)), t.items, true, rest, es + [start]);
    assert es + [start] + ItemsEvents(t.items, m.directives) + [SequenceEndEvent] == es + Events(t, m.directives);
  }

  lemma BlockSequenceShape(t: Text, ds: seq<TagDirective>, rest: seq<Token>, block: bool, indentless: bool)
    requires t.BlockSequenceText? && YamlText.Fits(t, ds, block, indentless)
    ensures ItemsFit(t.items, ds) && Resolve(ds, t.props.tag).Some? && block
    ensures Tokens(t) + rest == PropsTokens(t.props) +
            ([BlockSequenceStartToken] + (ItemsTokens(t.items) + ([BlockEndToken] + rest)))
    ensures |Tokens(t)| == |PropsTokens(t.props)| + 1 + |ItemsTokens(t.items)| + 1
    ensures Events(t, ds) == [StartOf(BlockSequenceStartToken, t.props, ds)] +
            (ItemsEvents(t.items, ds) + [SequenceEndEvent])
  {
    hide PropsTokens, ItemsTokens, ItemsEvents, Full, Resolve;
  }

  lemma {:induction false} ItemsRead(m: Machine, items: BlockItems, first: bool, rest: seq<Token>, es: seq<Event>)
    requires CollectionReady(m, first, BlockSequenceFirstEntryState, BlockSequenceEntryState,
                             ItemsTokens(items) + ([BlockEndToken] + rest))
    requires ItemsFit(items, m.directives)
    ensures Comes(Run(m, es), ItemsReadable(items), Run(Left(Inner(m, first), |ItemsTokens(items)| + 1),
                                    es + ItemsEvents(items, m.directives) + [SequenceEndEvent]))
    decreases items, 3
  {
    hide Comes, ItemsTokens, ItemsEvents, CollectionReady, StateMachine, Closes, Rest, NodeBehind, PlaceTokens,
      PlaceEvents, Ready, Close, Left;
    var own, n, tail := BlockSequenceEntryState, Inner(m, first), ItemsTokens(items) + ([BlockEndToken] + rest);
    InnerReady(m, first, BlockSequenceFirstEntryState, own, tail);
    BlockSequenceStep(m, first, tail);
    ItemsShape(items, m.directives);
    if items.NoBlockItems? {
      CloseIsLeft(n, SequenceEndEvent);
      LastStep(m, es, Left(n, 1), SequenceEndEvent);
      assert es + [] + [SequenceEndEvent] == es + [SequenceEndEvent];
    } else {
      var more := ItemsTokens(items.rest) + ([BlockEndToken] + rest);
      assert tail == [BlockEntryToken] + (PlaceTokens(items.node) + more);
      ItemsFollow(items.rest, [BlockEndToken] + rest);
      PlaceBehind(n, BlockEntryToken, items.node, more, EndsBlockItem, true, false);
      var n2 := Ahead(n, 1 + |PlaceTokens(items.node)|).(state := own);
      InsideReady(n, 1 + |PlaceTokens(items.node)|, BlockSequenceFirstEntryState, own, more);
      ItemsRead(n2, items.rest, false, rest, es + PlaceEvents(items.node, m.directives));
      assert es + PlaceEvents(items.node, m.directives) + ItemsEvents(items.rest, m.directives)
          == es + ItemsEvents(items, m.directives);
      LeftAhead(n, 1 + |PlaceTokens(items.node)|, own, |ItemsTokens(items.rest)| + 1);
      PlaceThen(m, n, items.node, more, EndsBlockItem, own, true, false, es, ItemsReadable(items.rest),
                Run(Left(n, |ItemsTokens(items)| + 1), es + ItemsEvents(items, m.directives) + [SequenceEndEvent]));
    }
  }

  lemma LastStep(m: Machine, es: seq<Event>, n: Machine, e: Event)
    requires Ready(m) && StateMachine(m) == Outcome(n, Some(e))
    ensures Comes(Run(m, es), true, Run(n, es + [e]))
  {
    hide StateMachine, Ready;
    Stays(Run(n, es + [e]));
    EventThen(m, es, n, e, true, Run(n, es + [e]));
  }

  lemma LeftAhead(n: Machine, k: nat, s: State, j: nat)
    requires n.states != [] && n.marks != []
    ensures Left(Ahead(n, k).(state := s), j) == Left(n, k + j)
  {
  }

  lemma ItemsShape(items: BlockItems, ds: seq<TagDirective>)
    ensures items.NoBlockItems? ==> ItemsTokens(items) == [] && ItemsEvents(items, ds) == []
    ensures items.BlockItem? ==>
              && ItemsTokens(items) == [BlockEntryToken] + (PlaceTokens(items.node) + ItemsTokens(items.rest))
              && ItemsEvents(items, ds) == PlaceEvents(items.node, ds) + ItemsEvents(items.rest, ds)
  {
  }

  /** Behind an item comes the next one or what closes the sequence. */
  lemma ItemsFollow(items: BlockItems, closing: seq<Token>)
    requires closing != [] && !Begins(closing[0]) && !closing[0].StreamStartToken?
    ensures var tail := ItemsTokens(items) + closing;
            Follows(tail) && (tail[0] == BlockEntryToken || tail[0] == closing[0])
  {
  }

  lemma InsideReady(n: Machine, k: nat, ofFirst: State, own: State, tail: seq<Token>)
    requires Ready(Ahead(n, k)) && n.states != [] && n.marks != [] && Rest(Ahead(n, k)) == tail && IsContinuation(own)
    ensures CollectionReady(Ahead(n, k).(state := own), false, ofFirst, own, tail)
  {
  }

  lemma BlockSequenceStep(m: Machine, first: bool, tail: seq<Token>)
    requires CollectionReady(m, first, BlockSequenceFirstEntryState, BlockSequenceEntryState, tail) && tail != []
    ensures var n := Inner(m, first);
            && n.pos < |n.tokens| && n.tokens[n.pos] == tail[0]
            && (tail[0].BlockEntryToken? ==>
                  StateMachine(m) == NodeBehind(n, EndsBlockItem, BlockSequenceEntryState, true, false))
            && (tail[0].BlockEndToken? ==> StateMachine(m) == Close(n, SequenceEndEvent))
  {
    hide NodeBehind, Close;
    assert Rest(Inner(m, first))[0] == tail[0];
  }

  // ---------------------------------------------------------------- indentless sequences

  lemma {:induction false} IndentlessRead(m: Machine, t: Text, rest: seq<Token>, block: bool, indentless: bool,
                                          es: seq<Event>)
    requires NodeReady(m, t, rest, block, indentless) && t.IndentlessText?
    ensures NodeRead(m, ParseNode(m, block, indentless), es, t)
    decreases t, 2
  {
    hide PropsTokens, ParseNode, Resolve, Comes, ItemsTokens, ItemsEvents, Rest, Closes, Full, Tokens, Events,
      YamlText.Fits, Begins;
    var p, tail := t.props, ItemsTokens(t.items) + rest;
    IndentlessShape(t, m.directives, rest, block, indentless);
    ContentRead(m, p, tail, block, indentless);
    RestAhead(m, PropsTokens(p), tail);
    var n := Ahead(m, |PropsTokens(p)|).(state := IndentlessSequenceEntryState);
    var start := SequenceOf(p, m.directives, BlockStyle);
    StateRest(Ahead(m, |PropsTokens(p)|), IndentlessSequenceEntryState);
    IndentlessItemsRead(n, t.items, rest, es + [start]);
    assert es + [start] + ItemsEvents(t.items, m.directives) + [SequenceEndEvent] == es + Events(t, m.directives);
  }

  lemma IndentlessShape(t: Text, ds: seq<TagDirective>, rest: seq<Token>, block: bool, indentless: bool)
    requires t.IndentlessText? && YamlText.Fits(t, ds, block, indentless)
    ensures ItemsFit(t.items, ds) && Resolve(ds, t.props.tag).Some? && indentless
    ensures Tokens(t) + rest == PropsTokens(t.props) + (ItemsTokens(t.items) + rest)
    ensures |Tokens(t)| == |PropsTokens(t.props)| + |ItemsTokens(t.items)|
    ensures ItemsTokens(t.items) != [] && (ItemsTokens(t.items) + rest)[0] == BlockEntryToken
    ensures Events(t, ds) == [SequenceOf(t.props, ds, BlockStyle)] + (ItemsEvents(t.items, ds) + [SequenceEndEvent])
  {
    hide PropsTokens, Full, Resolve;
  }

  lemma StateRest(m: Machine, s: State)
    requires Ready(m) && IsContinuation(s)
    ensures Ready(m.(state := s)) && Rest(m.(state := s)) == Rest(m)
  {
  }

  lemma {:induction false} IndentlessItemsRead(m: Machine, items: BlockItems, rest: seq<Token>, es: seq<Event>)
    requires Ready(m) && m.states != [] && m.state == IndentlessSequenceEntryState
    requires Rest(m) == ItemsTokens(items) + rest && rest != [] && EndsBlockPair(rest[0]) &&
             ItemsFit(items, m.directives)
    ensures Comes(Run(m, es), ItemsReadable(items),
                  Run(Returned(m, |ItemsTokens(items)|), es + ItemsEvents(items, m.directives) + [SequenceEndEvent]))
    decreases items, 3
  {
    hide Comes, ItemsTokens, ItemsEvents, StateMachine, Closes, Rest, NodeBehind, PlaceTokens, PlaceEvents, Ready;
    ItemsShape(items, m.directives);
    IndentlessStep(m, ItemsTokens(items) + rest);
    if items.NoBlockItems? {
      assert [] + rest == rest;
      IndentlessEnd(m);
      LastStep(m, es, Returned(m, 0), SequenceEndEvent);
      assert es + [] + [SequenceEndEvent] == es + [SequenceEndEvent];
    } else {
      var more, own := ItemsTokens(items.rest) + rest, IndentlessSequenceEntryState;
      assert ItemsTokens(items) + rest == [BlockEntryToken] + (PlaceTokens(items.node) + more);
      ItemsFollow(items.rest, rest);
      PlaceBehind(m, BlockEntryToken, items.node, more, EndsIndentlessItem, true, false);
      var a := Ahead(m, 1 + |PlaceTokens(items.node)|);
      StateRest(a, own);
      IndentlessItemsRead(a.(state := own), items.rest, rest, es + PlaceEvents(items.node, m.directives));
      assert es + PlaceEvents(items.node, m.directives) + ItemsEvents(items.rest, m.directives)
          == es + ItemsEvents(items, m.directives);
      PlaceThen(m, m, items.node, more, EndsIndentlessItem, own, true, false, es, ItemsReadable(items.rest),
                Run(Returned(m, |ItemsTokens(items)|), es + ItemsEvents(items, m.directives) + [SequenceEndEvent]));
    }
  }

  lemma IndentlessStep(m: Machine, tail: seq<Token>)
    requires Ready(m) && m.state == IndentlessSequenceEntryState && Rest(m) == tail && tail != []
    ensures m.pos < |m.tokens| && m.tokens[m.pos] == tail[0]
    ensures tail[0].BlockEntryToken? ==>
              StateMachine(m) == NodeBehind(m, EndsIndentlessItem, IndentlessSequenceEntryState, true, false)
    ensures !tail[0].BlockEntryToken? ==> StateMachine(m) == Emit(PopState(m), SequenceEndEvent)
  {
    hide NodeBehind, PopState;
    assert Rest(m)[0] == tail[0];
  }

  lemma IndentlessEnd(m: Machine)
    requires Ready(m) && m.states != []
    ensures Emit(PopState(m), SequenceEndEvent) == Outcome(Returned(m, 0), Some(SequenceEndEvent))
  {
  }

  // ---------------------------------------------------------------- block mappings

  lemma {:induction false} BlockMappingRead(m: Machine, t: Text, rest: seq<Token>, block: bool, indentless: bool,
                                            es: seq<Event>)
    requires NodeReady(m, t, rest, block, indentless) && t.BlockMappingText?
    ensures NodeRead(m, ParseNode(m, block, indentless), es, t)
    decreases t, 2
  {
    hide PropsTokens, ParseNode, Resolve, Comes, PairsTokens, YamlText.PairsEvents, Rest, Follows, CollectionReady,
      Tokens, Events, YamlText.Fits, Full, Returned, Left;
    var p, c, tail := t.props, BlockMappingStartToken, PairsTokens(t.pairs) + ([BlockEndToken] + rest);
    var start := StartOf(c, p, m.directives);
    BlockMappingShape(t, m.directives, rest, block, indentless);
    OpeningRead(m, p, c, tail, block, indentless);
    CollectionOpened(m, |PropsTokens(p)|, c, BlockMappingKeyState, tail);
    PairsRead(Ahead(m, |PropsTokens(p)|).(state := FirstOf(c)), t.pairs, true, rest, es + [start]);
    assert es + [start] + YamlText.PairsEvents(t.pairs, m.directives) + [MappingEndEvent] ==
           es + Events(t, m.directives);
  }

  lemma BlockMappingShape(t: Text, ds: seq<TagDirective>, rest: seq<Token>, block: bool, indentless: bool)
    requires t.BlockMappingText? && YamlText.Fits(t, ds, block, indentless)
    ensures PairsFit(t.pairs, ds) && Resolve(ds, t.props.tag).Some? && block
    ensures Tokens(t) + rest == PropsTokens(t.props) +
            ([BlockMappingStartToken] + (PairsTokens(t.pairs) + ([BlockEndToken] + rest)))
    ensures |Tokens(t)| == |PropsTokens(t.props)| + 1 + |PairsTokens(t.pairs)| + 1
    ensures Events(t, ds) == [StartOf(BlockMappingStartToken, t.props, ds)] +
            (YamlText.PairsEvents(t.pairs, ds) + [MappingEndEvent])
  {
    hide PropsTokens, PairsTokens, YamlText.PairsEvents, Full, Resolve;
  }

  lemma {:induction false} PairsRead(m: Machine, pairs: BlockPairs, first: bool, rest: seq<Token>, es: seq<Event>)
    requires CollectionReady(m, first, BlockMappingFirstKeyState, BlockMappingKeyState,
                             PairsTokens(pairs) + ([BlockEndToken] + rest))
    requires PairsFit(pairs, m.directives)
    ensures Comes(Run(m, es), PairsReadable(pairs), Run(Left(Inner(m, first), |PairsTokens(pairs)| + 1),
                                    es + YamlText.PairsEvents(pairs, m.directives) + [MappingEndEvent]))
    decreases pairs, 3
  {
    hide Comes, PairsTokens, YamlText.PairsEvents, CollectionReady, StateMachine, Closes, Rest, NodeBehind, Ready,
      Close, Left;
    var n, tail := Inner(m, first), PairsTokens(pairs) + ([BlockEndToken] + rest);
    InnerReady(m, first, BlockMappingFirstKeyState, BlockMappingKeyState, tail);
    BlockMappingStep(m, first, tail);
    if pairs.NoBlockPairs? {
      PairsShape(pairs, m.directives);
      CloseIsLeft(n, MappingEndEvent);
      LastStep(m, es, Left(n, 1), MappingEndEvent);
      assert es + [] + [MappingEndEvent] == es + [MappingEndEvent];
    } else if pairs.LoneValue? {
      LoneValueBreaks(m, pairs, first, rest, es);
    } else {
      PairRead(m, pairs, first, rest, es);
    }
  }

  lemma {:induction false} PairRead(m: Machine, pairs: BlockPairs, first: bool, rest: seq<Token>, es: seq<Event>)
    requires CollectionReady(m, first, BlockMappingFirstKeyState, BlockMappingKeyState,
                             PairsTokens(pairs) + ([BlockEndToken] + rest))
    requires PairsFit(pairs, m.directives) && pairs.BlockPair?
    ensures Comes(Run(m, es), PairsReadable(pairs), Run(Left(Inner(m, first), |PairsTokens(pairs)| + 1),
                                    es + YamlText.PairsEvents(pairs, m.directives) + [MappingEndEvent]))
    decreases pairs, 2
  {
    hide Comes, PairsTokens, YamlText.PairsEvents, CollectionReady, StateMachine, Closes, Rest, NodeBehind, Ready, Left,
      PlaceTokens, PlaceEvents, ValueTokens, ValueEvents, Begins, PlaceFits, PlaceReady, Ahead, Inner;
    var ds, n, v := m.directives, Inner(m, first), pairs.value;
    var more := PairsTokens(pairs.rest) + ([BlockEndToken] + rest);
    var afterKey, k := ValueTokens(v) + more, 1 + |PlaceTokens(pairs.key)|;
    PairsShape(pairs, ds);
    assert PairsTokens(pairs) + ([BlockEndToken] + rest) == [KeyToken] + (PlaceTokens(pairs.key) + afterKey);
    PairReady(m, pairs.key, first, afterKey, v, pairs.rest, [BlockEndToken] + rest);
    PairValueRead(n, k, pairs, rest, es + PlaceEvents(pairs.key, ds));
    var tailEvents := ValueEvents(v, ds) + YamlText.PairsEvents(pairs.rest, ds);
    assert es + PlaceEvents(pairs.key, ds) + tailEvents == es + YamlText.PairsEvents(pairs, ds);
    PlaceThen(m, n, pairs.key, afterKey, EndsBlockPair, BlockMappingValueState, true, true, es, ValueReadable(v) &&
              PairsReadable(pairs.rest),
              Run(Left(n, |PairsTokens(pairs)| + 1), es + YamlText.PairsEvents(pairs, ds) + [MappingEndEvent]));
  }

  /** VALUE without KEY is an error, also at the beginning of the mapping. */
  lemma LoneValueBreaks(m: Machine, pairs: BlockPairs, first: bool, rest: seq<Token>, es: seq<Event>)
    requires CollectionReady(m, first, BlockMappingFirstKeyState, BlockMappingKeyState,
                             PairsTokens(pairs) + ([BlockEndToken] + rest))
    requires pairs.LoneValue?
    ensures forall t :: Comes(Run(m, es), false, t)
  {
    hide Comes, CollectionReady, StateMachine, Rest, PlaceTokens, Ready;
    var tail := PairsTokens(pairs) + ([BlockEndToken] + rest);
    InnerReady(m, first, BlockMappingFirstKeyState, BlockMappingKeyState, tail);
    BlockMappingStep(m, first, tail);
    forall t ensures Comes(Run(m, es), false, t) { FailsHere(m, es, t); }
  }

  /** At KEY in a block mapping: what the step does. */
  lemma PairReady(m: Machine, key: Place, first: bool, afterKey: seq<Token>, v: Value, pairs: BlockPairs,
                  closing: seq<Token>)
    requires CollectionReady(m, first, BlockMappingFirstKeyState, BlockMappingKeyState,
                             [KeyToken] + (PlaceTokens(key) + afterKey))
    requires closing != [] && closing[0].BlockEndToken?
    requires afterKey == ValueTokens(v) + (PairsTokens(pairs) + closing) && PlaceFits(key, m.directives, true, true)
    ensures var n, k := Inner(m, first), 1 + |PlaceTokens(key)|;
            && Ready(m) && n.states != [] && n.marks != [] && n.directives == m.directives
            && StateMachine(m) == NodeBehind(n, EndsBlockPair, BlockMappingValueState, true, true)
            && PlaceReady(n, key, afterKey, EndsBlockPair, true, true)
            && Ready(Ahead(n, k)) && Rest(Ahead(n, k)) == afterKey
  {
    hide CollectionReady, StateMachine, Rest, NodeBehind, Ready, Inner, Closes, PlaceTokens, ValueTokens, Begins, Close,
      PlaceFits, PlaceReady, PairsTokens;
    var tail := [KeyToken] + (PlaceTokens(key) + afterKey);
    InnerReady(m, first, BlockMappingFirstKeyState, BlockMappingKeyState, tail);
    BlockMappingStep(m, first, tail);
    PairsFollow(v, pairs, closing);
    EndsFacts();
    PlaceBehind(Inner(m, first), KeyToken, key, afterKey, EndsBlockPair, true, true);
  }

  /** From the value of a pair to the end of the mapping. */
  lemma {:induction false} PairValueRead(n: Machine, k: nat, pairs: BlockPairs, rest: seq<Token>, es: seq<Event>)
    requires pairs.BlockPair? && PairsFit(pairs, n.directives) && n.states != [] && n.marks != [] && Ready(Ahead(n, k))
    requires Rest(Ahead(n, k)) == ValueTokens(pairs.value) + (PairsTokens(pairs.rest) + ([BlockEndToken] + rest))
    ensures Comes(Run(Ahead(n, k).(state := BlockMappingValueState), es), ValueReadable(pairs.value) &&
                  PairsReadable(pairs.rest),
                    Run(Left(n, k + |ValueTokens(pairs.value)| + |PairsTokens(pairs.rest)| + 1),
                        es + (ValueEvents(pairs.value, n.directives) +
                              YamlText.PairsEvents(pairs.rest, n.directives)) + [MappingEndEvent]))
    decreases pairs, 1
  {
    hide Comes, PairsTokens, YamlText.PairsEvents, CollectionReady, StateMachine, Closes, Rest, NodeBehind, Ready, Left,
      ValueTokens, ValueEvents, Begins;
    var ds, a, v := n.directives, Ahead(n, k).(state := BlockMappingValueState), pairs.value;
    var more, j := PairsTokens(pairs.rest) + ([BlockEndToken] + rest), |ValueTokens(v)|;
    PairsFollow(v, pairs.rest, [BlockEndToken] + rest);
    StateRest(Ahead(n, k), BlockMappingValueState);
    RestAhead(a, ValueTokens(v), more);
    ReadyAhead(a, j);
    AheadTwice(n, k, j, BlockMappingValueState, BlockMappingKeyState);
    InsideReady(n, k + j, BlockMappingFirstKeyState, BlockMappingKeyState, more);
    PairsRead(Ahead(n, k + j).(state := BlockMappingKeyState), pairs.rest, false, rest, es + ValueEvents(v, ds));
    LeftAhead(n, k + j, BlockMappingKeyState, |PairsTokens(pairs.rest)| + 1);
    assert es + ValueEvents(v, ds) + YamlText.PairsEvents(pairs.rest, ds) ==
           es + (ValueEvents(v, ds) + YamlText.PairsEvents(pairs.rest, ds));
    BlockValueStep(a);
    EndsFacts();
    ValueThen(a, v, more, EndsBlockPair, BlockMappingKeyState, true, true, es, PairsReadable(pairs.rest),
              Run(Left(n, k + j + |PairsTokens(pairs.rest)| + 1),
                  es + (ValueEvents(v, ds) + YamlText.PairsEvents(pairs.rest, ds)) + [MappingEndEvent]));
  }

  lemma EndsFacts()
    ensures forall t :: Begins(t) ==> !EndsBlockPair(t) && !EndsBlockItem(t) && !EndsIndentlessItem(t)
    ensures forall t :: Begins(t) ==> !EndsPairInSequence(t) && !EndsFlowKey(t) && !EndsFlowValue(t)
  {
  }

  lemma AheadTwice(n: Machine, k: nat, j: nat, s: State, u: State)
    ensures Ahead(Ahead(n, k).(state := s), j).(state := u) == Ahead(n, k + j).(state := u)
    ensures Rest(Ahead(Ahead(n, k).(state := s), j)) == Rest(Ahead(n, k + j))
    ensures Ready(Ahead(n, k)) && Ready(Ahead(Ahead(n, k).(state := s), j)) ==> Ready(Ahead(n, k + j))
  {
  }

  lemma ReadyAhead(a: Machine, j: nat)
    requires Ready(a) && a.pos + j <= |a.tokens|
    ensures Ready(Ahead(a, j))
  {
  }

  lemma PairsShape(pairs: BlockPairs, ds: seq<TagDirective>)
    ensures pairs.NoBlockPairs? ==> PairsTokens(pairs) == [] && YamlText.PairsEvents(pairs, ds) == []
    ensures pairs.BlockPair? ==>
              && PairsTokens(pairs) == [KeyToken] + (PlaceTokens(pairs.key) +
                                                     (ValueTokens(pairs.value) + PairsTokens(pairs.rest)))
              && YamlText.PairsEvents(pairs, ds) ==
                 PlaceEvents(pairs.key, ds) + (ValueEvents(pairs.value, ds) + YamlText.PairsEvents(pairs.rest, ds))
  {
  }

  lemma PairsFollow(v: Value, pairs: BlockPairs, closing: seq<Token>)
    requires closing != [] && closing[0].BlockEndToken?
    ensures var more := PairsTokens(pairs) + closing;
            && Follows(more) && EndsBlockPair(more[0]) && (!pairs.LoneValue? ==> !more[0].ValueToken?)
            && Follows(ValueTokens(v) + more) && EndsBlockPair((ValueTokens(v) + more)[0])
  {
  }

  lemma BlockMappingStep(m: Machine, first: bool, tail: seq<Token>)
    requires CollectionReady(m, first, BlockMappingFirstKeyState, BlockMappingKeyState, tail) && tail != []
    ensures var n := Inner(m, first);
            && n.pos < |n.tokens| && n.tokens[n.pos] == tail[0]
            && (tail[0].KeyToken? ==>
                  StateMachine(m) == NodeBehind(n, EndsBlockPair, BlockMappingValueState, true, true))
            && (tail[0].BlockEndToken? ==> StateMachine(m) == Close(n, MappingEndEvent))
            && (tail[0].ValueToken? ==> StateMachine(m).event == None && StateMachine(m).m.error == ParserError)
  {
    hide NodeBehind, Close;
    assert Rest(Inner(m, first))[0] == tail[0];
  }

  lemma BlockValueStep(m: Machine)
    requires m.state == BlockMappingValueState && m.pos < |m.tokens|
    ensures StateMachine(m) == if m.tokens[m.pos].ValueToken? then
            NodeBehind(m, EndsBlockPair, BlockMappingKeyState, true, true)
                               else EmitEmpty(m.(state := BlockMappingKeyState))
  {
    hide NodeBehind;
  }

  // ---------------------------------------------------------------- flow sequences

  /** The machine behind the comma that separates the entries. */
  function Separated(m: Machine, first: bool): Machine {
    if first then Open(m) else Ahead(m, 1)
  }

  lemma {:induction false} FlowSequenceRead(m: Machine, t: Text, rest: seq<Token>, block: bool, indentless: bool,
                                            es: seq<Event>)
    requires NodeReady(m, t, rest, block, indentless) && t.FlowSequenceText?
    ensures NodeRead(m, ParseNode(m, block, indentless), es, t)
    decreases t, 2
  {
    hide PropsTokens, ParseNode, Resolve, Comes, FlowItemsTokens, FlowItemsEvents, Rest, Follows, CollectionReady,
      Tokens, Events, YamlText.Fits, Full, Returned, Left;
    var p, c, tail := t.props, FlowSequenceStartToken, FlowItemsTokens(t.flowItems, true) + rest;
    var start := StartOf(c, p, m.directives);
    FlowSequenceShape(t, m.directives, rest, block, indentless);
    OpeningRead(m, p, c, tail, block, indentless);
    CollectionOpened(m, |PropsTokens(p)|, c, FlowSequenceEntryState, tail);
    FlowItemsRead(Ahead(m, |PropsTokens(p)|).(state := FirstOf(c)), t.flowItems, true, rest, es + [start]);
    assert es + [start] + FlowItemsEvents(t.flowItems, m.directives) + [SequenceEndEvent] ==
           es + Events(t, m.directives);
  }

  lemma FlowSequenceShape(t: Text, ds: seq<TagDirective>, rest: seq<Token>, block: bool, indentless: bool)
    requires t.FlowSequenceText? && YamlText.Fits(t, ds, block, indentless)
    ensures FlowItemsFit(t.flowItems, ds) && Resolve(ds, t.props.tag).Some?
    ensures Tokens(t) + rest == PropsTokens(t.props) +
            ([FlowSequenceStartToken] + (FlowItemsTokens(t.flowItems, true) + rest))
    ensures |Tokens(t)| == |PropsTokens(t.props)| + 1 + |FlowItemsTokens(t.flowItems, true)|
    ensures Events(t, ds) == [StartOf(FlowSequenceStartToken, t.props, ds)] +
            (FlowItemsEvents(t.flowItems, ds) + [SequenceEndEvent])
  {
    hide PropsTokens, FlowItemsTokens, FlowItemsEvents, Full, Resolve;
  }

  lemma {:induction false} FlowItemsRead(m: Machine, items: FlowItems, first: bool, rest: seq<Token>, es: seq<Event>)
    requires CollectionReady(m, first, FlowSequenceFirstEntryState, FlowSequenceEntryState,
                             FlowItemsTokens(items, first) + rest)
    requires FlowItemsFit(items, m.directives)
    ensures Comes(Run(m, es), FlowItemsReadable(items), Run(Left(Inner(m, first), |FlowItemsTokens(items, first)|),
                                    es + FlowItemsEvents(items, m.directives) + [SequenceEndEvent]))
    decreases items, 5
  {
    hide FlowItemsTokens, FlowItemsEvents, CollectionReady;
    match items
    case NoFlowItems(_) => FlowSequenceEndRead(m, items, first, rest, es);
    case FlowItem(_, _) => FlowItemRead(m, items, first, rest, es);
    case FlowSinglePair(_, _, _) => SinglePairRead(m, items, first, rest, es);
  }

  lemma FlowSequenceEndRead(m: Machine, items: FlowItems, first: bool, rest: seq<Token>, es: seq<Event>)
    requires CollectionReady(m, first, FlowSequenceFirstEntryState, FlowSequenceEntryState,
                             FlowItemsTokens(items, first) + rest)
    requires items.NoFlowItems?
    ensures Comes(Run(m, es), true, Run(Left(Inner(m, first), |FlowItemsTokens(items, first)|),
                                    es + FlowItemsEvents(items, m.directives) + [SequenceEndEvent]))
  {
    hide Comes, CollectionReady, StateMachine, Rest, Close, Left;
    var n, tail := Inner(m, first), FlowItemsTokens(items, first) + rest;
    InnerReady(m, first, FlowSequenceFirstEntryState, FlowSequenceEntryState, tail);
    FlowSequenceStep(m, first, tail);
    if first || !items.comma {
      assert tail == [FlowSequenceEndToken] + rest;
      CloseIsLeft(n, SequenceEndEvent);
      LastStep(m, es, Left(n, 1), SequenceEndEvent);
    } else {
      assert tail == [FlowEntryToken] + ([FlowSequenceEndToken] + rest);
      RestAhead(n, [FlowEntryToken], [FlowSequenceEndToken] + rest);
      RestAhead(Ahead(n, 1), [FlowSequenceEndToken], rest);
      CloseIsLeft(Ahead(n, 1), SequenceEndEvent);
      LeftAgain(n, 1, 1);
      LastStep(m, es, Left(n, 2), SequenceEndEvent);
    }
    assert es + [] + [SequenceEndEvent] == es + [SequenceEndEvent];
  }

  lemma LeftAgain(n: Machine, k: nat, j: nat)
    requires n.states != [] && n.marks != []
    ensures Left(Ahead(n, k), j) == Left(n, k + j)
  {
  }

  /** The entry behind the comma, if there is one to skip. */
  lemma EntryReady(m: Machine, first: bool, ofFirst: State, own: State, entry: seq<Token>)
    requires CollectionReady(m, first, ofFirst, own, Comma(first) + entry) && entry != [] && IsContinuation(own)
    ensures var a := Separated(m, first);
            && Ready(m) && Ready(a) && a.states != [] && a.marks != [] && Rest(a) == entry &&
                a.directives == m.directives
            && a.pos < |a.tokens| && a.tokens[a.pos] == entry[0]
            && forall j: nat :: Left(Inner(m, first), |Comma(first)| + j) == Left(a, j)
  {
    hide CollectionReady, Rest;
    var n, k := Inner(m, first), |Comma(first)|;
    InnerReady(m, first, ofFirst, own, Comma(first) + entry);
    RestAhead(n, Comma(first), entry);
    OpenIsAhead(m);
    RestAhead(Ahead(n, k), [], entry);
    assert [] + entry == entry;
  }

  lemma OpenIsAhead(m: Machine)
    ensures !Open(m).ended ==> Ahead(Open(m), 0) == Open(m)
  {
  }

  lemma FlowSequenceStep(m: Machine, first: bool, tail: seq<Token>)
    requires CollectionReady(m, first, FlowSequenceFirstEntryState, FlowSequenceEntryState, tail) && tail != []
    ensures var n := Inner(m, first);
            && n.pos < |n.tokens| && n.tokens[n.pos] == tail[0]
            && (tail[0].FlowSequenceEndToken? ==> StateMachine(m) == Close(n, SequenceEndEvent))
            && (!tail[0].FlowSequenceEndToken? && first ==> StateMachine(m) == FlowSequenceItem(n, tail[0]))
            && (tail[0].FlowEntryToken? && !first && |tail| > 1 ==>
                StateMachine(m) == FlowSequenceItem(Ahead(n, 1), tail[1]))
  {
    hide Close, FlowSequenceItem;
    var n := Inner(m, first);
    assert Rest(n)[0] == tail[0];
    if |tail| > 1 { assert Rest(n)[1] == tail[1]; }
  }

  /** The step at an entry, whether it is the first or not. */
  lemma FlowSequenceEntryStep(m: Machine, first: bool, entry: seq<Token>)
    requires CollectionReady(m, first, FlowSequenceFirstEntryState, FlowSequenceEntryState, Comma(first) + entry)
    requires entry != [] && !entry[0].FlowSequenceEndToken?
    ensures StateMachine(m) == FlowSequenceItem(Separated(m, first), entry[0])
  {
    hide FlowSequenceItem, StateMachine, CollectionReady;
    FlowSequenceStep(m, first, Comma(first) + entry);
    if first {
      assert Comma(first) + entry == entry;
    } else {
      assert (Comma(first) + entry)[1] == entry[0];
    }
  }

  lemma FlowItemsFollow(items: FlowItems, rest: seq<Token>)
    ensures var more := FlowItemsTokens(items, false) + rest;
            && Follows(more) && EndsPairInSequence(more[0])
            && forall v: Value :: Follows(ValueTokens(v) + more)
  {
    hide Tokens;
    var more := FlowItemsTokens(items, false) + rest;
    forall v: Value ensures Follows(ValueTokens(v) + more) {
      if v.NoValue? { assert [] + more == more; }
    }
  }

  /** At an entry that is a node: what the step does, and where the sequence goes on. */
  lemma FlowItemReady(m: Machine, t: Text, first: bool, more: seq<Token>)
    requires CollectionReady(m, first, FlowSequenceFirstEntryState, FlowSequenceEntryState,
                             Comma(first) + (Tokens(t) + more))
    requires YamlText.Fits(t, m.directives, false, false) && Follows(more)
    ensures var a, own := Separated(m, first), FlowSequenceEntryState;
            && Ready(m) && a.states != [] && a.marks != [] && a.directives == m.directives
            && NodeReady(Push(a, own), t, more, false, false)
            && StateMachine(m) == ParseNode(Push(a, own), false, false)
            && CollectionReady(Ahead(a, |Tokens(t)|).(state := own), false, FlowSequenceFirstEntryState, own, more)
            && forall j: nat :: Left(Inner(m, first), |Comma(first)| + j) == Left(a, j)
  {
    hide CollectionReady, StateMachine, Rest, ParseNode, Left, Tokens, Begins, Ready, YamlText.Fits, Separated, Inner,
      NodeReady, Closes;
    var a, own, entry := Separated(m, first), FlowSequenceEntryState, Tokens(t) + more;
    TextBegins(t, m.directives, false, false);
    EntryReady(m, first, FlowSequenceFirstEntryState, own, entry);
    NodeHere(a, t, more, own, false, false);
    NoEnd(a.tokens[a.pos]);
    FlowSequenceEntryStep(m, first, entry);
    InsideReady(a, |Tokens(t)|, FlowSequenceFirstEntryState, own, more);
  }

  lemma {:induction false} FlowItemRead(m: Machine, items: FlowItems, first: bool, rest: seq<Token>, es: seq<Event>)
    requires CollectionReady(m, first, FlowSequenceFirstEntryState, FlowSequenceEntryState,
                             FlowItemsTokens(items, first) + rest)
    requires FlowItemsFit(items, m.directives) && items.FlowItem?
    ensures Comes(Run(m, es), FlowItemsReadable(items), Run(Left(Inner(m, first), |FlowItemsTokens(items, first)|),
                                    es + FlowItemsEvents(items, m.directives) + [SequenceEndEvent]))
    decreases items, 4
  {
    hide Comes, CollectionReady, StateMachine, Rest, ParseNode, Left, Tokens, Events, Ready, YamlText.Fits, Separated,
      NodeReady, Closes, FlowItemsTokens, FlowItemsEvents, Inner;
    var t, ds, own := items.node, m.directives, FlowSequenceEntryState;
    var more := FlowItemsTokens(items.rest, false) + rest;
    FlowItemShape(items, first, ds, rest);
    var a := Separated(m, first);
    var b := Ahead(a, |Tokens(t)|).(state := own);
    FlowItemsFollow(items.rest, rest);
    FlowItemReady(m, t, first, more);
    FlowItemsRead(b, items.rest, false, rest, es + Events(t, ds));
    InnerOfLater(b);
    LeftAhead(a, |Tokens(t)|, own, |FlowItemsTokens(items.rest, false)|);
    assert es + Events(t, ds) + FlowItemsEvents(items.rest, ds) == es + FlowItemsEvents(items, ds);
    NodeThen(m, a, t, more, own, false, false, es, FlowItemsReadable(items.rest),
             Run(Left(a, |Tokens(t)| + |FlowItemsTokens(items.rest, false)|),
                 es + FlowItemsEvents(items, ds) + [SequenceEndEvent]));
  }

  lemma FlowItemShape(items: FlowItems, first: bool, ds: seq<TagDirective>, rest: seq<Token>)
    requires items.FlowItem?
    ensures FlowItemsTokens(items, first) + rest ==
            Comma(first) + (Tokens(items.node) + (FlowItemsTokens(items.rest, false) + rest))
    ensures |FlowItemsTokens(items, first)| ==
            |Comma(first)| + (|Tokens(items.node)| + |FlowItemsTokens(items.rest, false)|)
    ensures FlowItemsEvents(items, ds) == Events(items.node, ds) + FlowItemsEvents(items.rest, ds)
  {
    hide Tokens, Events, Comma;
  }

  lemma InnerOfLater(m: Machine)
    ensures Inner(m, false) == m
  {
  }

  lemma NoEnd(t: Token)
    requires Begins(t)
    ensures !t.FlowSequenceEndToken? && !t.FlowMappingEndToken? && !t.KeyToken? && !t.ValueToken? && !t.FlowEntryToken?
  {
  }

  lemma {:induction false} SinglePairRead(m: Machine, items: FlowItems, first: bool, rest: seq<Token>, es: seq<Event>)
    requires CollectionReady(m, first, FlowSequenceFirstEntryState, FlowSequenceEntryState,
                             FlowItemsTokens(items, first) + rest)
    requires FlowItemsFit(items, m.directives) && items.FlowSinglePair?
    ensures Comes(Run(m, es), FlowItemsReadable(items), Run(Left(Inner(m, first), |FlowItemsTokens(items, first)|),
                                    es + FlowItemsEvents(items, m.directives) + [SequenceEndEvent]))
    decreases items, 4
  {
    hide Comes, CollectionReady, StateMachine, Rest, ParseNode, Close, Left, Tokens, Events, Begins, Ready,
      YamlText.Fits, Separated, Inner, PlaceTokens, PlaceEvents, ValueTokens, ValueEvents;
    var ds, own, key := m.directives, FlowSequenceEntryState, FlowSequenceEntryMappingKeyState;
    var more := FlowItemsTokens(items.rest, false) + rest;
    var pair := PlaceTokens(items.key) + (ValueTokens(items.value) + more);
    assert FlowItemsTokens(items, first) + rest == Comma(first) + ([KeyToken] + pair);
    var a := Separated(m, first);
    EntryReady(m, first, FlowSequenceFirstEntryState, own, [KeyToken] + pair);
    FlowSequenceEntryStep(m, first, [KeyToken] + pair);
    KeyStep(a, pair);
    SinglePairKeyRead(a, items, rest, es + [SinglePairStart]);
    assert es + [SinglePairStart] + (PlaceEvents(items.key, ds) +
                                     (ValueEvents(items.value, ds) + ([MappingEndEvent] +
                                                                      FlowItemsEvents(items.rest, ds))))
        == es + FlowItemsEvents(items, ds);
    EventThen(m, es, Ahead(a, 1).(state := key), SinglePairStart, FlowItemsReadable(items),
              PairTarget(a, items, es + [SinglePairStart]));
  }

  lemma KeyStep(a: Machine, pair: seq<Token>)
    requires Ready(a) && a.pos < |a.tokens| && Rest(a) == [KeyToken] + pair && a.tokens[a.pos] == KeyToken
    ensures FlowSequenceItem(a, KeyToken) ==
            Outcome(Ahead(a, 1).(state := FlowSequenceEntryMappingKeyState), Some(SinglePairStart))
    ensures Ready(Ahead(a, 1)) && Rest(Ahead(a, 1)) == pair
  {
    RestAhead(a, [KeyToken], pair);
  }

  /** From the key of a single pair to the end of the sequence. */
  lemma {:induction false} SinglePairKeyRead(a: Machine, items: FlowItems, rest: seq<Token>, es: seq<Event>)
    requires items.FlowSinglePair? && KeyReady(a, items, rest)
    ensures Comes(Run(Ahead(a, 1).(state := FlowSequenceEntryMappingKeyState), es), FlowItemsReadable(items),
                  PairTarget(a, items, es))
    decreases items, 3
  {
    hide Comes, KeyReady, PairTarget;
    if items.key.Present? {
      PresentKeyRead(a, items, rest, es);
    } else if AbsentKeyIsRead(items.value, items.rest) {
      AbsentKeyRead(a, items, rest, es);
    } else {
      AbsentKeyBreaks(a, items, rest, es);
    }
  }

  /** Behind the KEY of a single pair; `a` is in front of it. */
  predicate KeyReady(a: Machine, items: FlowItems, rest: seq<Token>) {
    && items.FlowSinglePair? && FlowItemsFit(items, a.directives) && a.states != [] && a.marks != []
    && Ready(Ahead(a, 1))
    && Rest(Ahead(a, 1)) ==
       PlaceTokens(items.key) + (ValueTokens(items.value) + (FlowItemsTokens(items.rest, false) + rest))
  }

  /** Behind the sequence. */
  function PairTarget(a: Machine, items: FlowItems, es: seq<Event>): Run
    requires items.FlowSinglePair? && a.states != [] && a.marks != []
  {
    Run(Left(a, 1 + |PlaceTokens(items.key)| + |ValueTokens(items.value)| + |FlowItemsTokens(items.rest, false)|),
        es + (PlaceEvents(items.key, a.directives) + (ValueEvents(items.value, a.directives) +
              ([MappingEndEvent] + FlowItemsEvents(items.rest, a.directives)))) + [SequenceEndEvent])
  }

  lemma {:induction false} PresentKeyRead(a: Machine, items: FlowItems, rest: seq<Token>, es: seq<Event>)
    requires KeyReady(a, items, rest) && items.key.Present?
    ensures Comes(Run(Ahead(a, 1).(state := FlowSequenceEntryMappingKeyState), es), FlowItemsReadable(items),
                  PairTarget(a, items, es))
    decreases items, 2
  {
    hide Comes, CollectionReady, StateMachine, Rest, ParseNode, Close, Left, Tokens, Events, Begins, Ready,
      YamlText.Fits, ValueTokens, ValueEvents, FlowItemsTokens, FlowItemsEvents;
    var ds, key, k := a.directives, items.key.text, 1 + |Tokens(items.key.text)|;
    var more := FlowItemsTokens(items.rest, false) + rest;
    FlowItemsFollow(items.rest, rest);
    assert PlaceFits(items.key, ds, false, false);
    var b := Ahead(a, 1).(state := FlowSequenceEntryMappingKeyState);
    StateRest(Ahead(a, 1), FlowSequenceEntryMappingKeyState);
    NodeHere(b, key, ValueTokens(items.value) + more, FlowSequenceEntryMappingValueState, false, false);
    NoEnd(b.tokens[b.pos]);
    SinglePairKeyStep(b);
    AheadTwice(a, 1, |Tokens(key)|, FlowSequenceEntryMappingKeyState, FlowSequenceEntryMappingValueState);
    SinglePairValueRead(a, k, items, rest, es + Events(key, ds));
    var tailEvents := ValueEvents(items.value, ds) + ([MappingEndEvent] + FlowItemsEvents(items.rest, ds));
    assert es + Events(key, ds) + tailEvents == es + (Events(key, ds) + tailEvents);
    NodeThen(b, b, key, ValueTokens(items.value) + more, FlowSequenceEntryMappingValueState, false, false, es,
             ValueReadable(items.value) && FlowItemsReadable(items.rest), PairTarget(a, items, es));
  }

  // ---------------------------------------------------------------- keys without a node

  /** Behind the token that the parser skips: VALUE, or a comma of which the closing bracket is left. */
  function BehindSkipped(items: FlowItems): FlowItems
    requires items.FlowSinglePair?
  {
    if items.value.NoValue? then NoFlowItems(false) else items.rest
  }

  /** The skipped token is VALUE with nothing behind it, or the last comma: nothing is missed. */
  lemma {:induction false} AbsentKeyRead(a: Machine, items: FlowItems, rest: seq<Token>, es: seq<Event>)
    requires KeyReady(a, items, rest) && items.key.Absent? && AbsentKeyIsRead(items.value, items.rest)
    ensures Comes(Run(Ahead(a, 1).(state := FlowSequenceEntryMappingKeyState), es), FlowItemsReadable(items),
                  PairTarget(a, items, es))
    decreases items, 2
  {
    hide Comes, StateMachine, Rest, Left, Ready, FlowItemsTokens, FlowItemsEvents, PairTarget, Closes;
    var key, here, end := FlowSequenceEntryMappingKeyState, FlowSequenceEntryMappingValueState,
        FlowSequenceEntryMappingEndState;
    var left := BehindSkipped(items);
    var more, t, good := FlowItemsTokens(left, false) + rest, PairTarget(a, items, es), FlowItemsReadable(left);
    SkippedShape(a, items, rest, es);
    FlowItemsFollow(left, rest);
    AbsentKeySkips(a, items, more);
    if items.value.NoValue? {
      PairEndLast(a, 2, rest, es + [Blank] + [Blank]);
    } else {
      PairEndRead(a, 2, left, rest, es + [Blank] + [Blank]);
    }
    EventThen(Ahead(a, 2).(state := here), es + [Blank], Ahead(a, 2).(state := end), Blank, good, t);
    EventThen(Ahead(a, 1).(state := key), es, Ahead(a, 2).(state := here), Blank, good, t);
  }

  lemma SkippedShape(a: Machine, items: FlowItems, rest: seq<Token>, es: seq<Event>)
    requires KeyReady(a, items, rest) && items.key.Absent? && AbsentKeyIsRead(items.value, items.rest)
    ensures var left := BehindSkipped(items);
            var more := FlowItemsTokens(left, false) + rest;
            && FlowItemsFit(left, a.directives) && FlowItemsReadable(items) == FlowItemsReadable(left)
            && (Rest(Ahead(a, 1)) == [ValueToken] + more || Rest(Ahead(a, 1)) == [FlowEntryToken] + more)
            && PairTarget(a, items, es) ==
               Run(Left(a, 2 + |FlowItemsTokens(left, false)|),
                   es + [Blank] + [Blank] + ([MappingEndEvent] + FlowItemsEvents(left, a.directives)) +
                       [SequenceEndEvent])
  {
    hide Rest, Left, Tokens, Events;
    var more := FlowItemsTokens(BehindSkipped(items), false) + rest;
    if items.value.NoValue? {
      assert Rest(Ahead(a, 1)) == [FlowEntryToken] + more;
    } else {
      assert Rest(Ahead(a, 1)) == [ValueToken] + more;
    }
    var tail := [MappingEndEvent] + FlowItemsEvents(items.rest, a.directives);
    assert es + ([Blank] + ([Blank] + tail)) == es + [Blank] + [Blank] + tail;
  }

  /** The two steps at an absent key and the absent value behind it. */
  lemma AbsentKeySkips(a: Machine, items: FlowItems, more: seq<Token>)
    requires Ready(Ahead(a, 1)) && Follows(more) && EndsPairInSequence(more[0])
    requires Rest(Ahead(a, 1)) == [ValueToken] + more || Rest(Ahead(a, 1)) == [FlowEntryToken] + more
    ensures var b, c := Ahead(a, 1).(state := FlowSequenceEntryMappingKeyState),
            Ahead(a, 2).(state := FlowSequenceEntryMappingValueState);
            && Ready(b) && Ready(c) && Ready(Ahead(a, 2)) && Rest(Ahead(a, 2)) == more
            && StateMachine(b) == Outcome(c, Some(Blank))
            && StateMachine(c) == Outcome(Ahead(a, 2).(state := FlowSequenceEntryMappingEndState), Some(Blank))
  {
    hide StateMachine, Rest;
    var b, c := Ahead(a, 1).(state := FlowSequenceEntryMappingKeyState),
        Ahead(a, 2).(state := FlowSequenceEntryMappingValueState);
    var t := Rest(Ahead(a, 1))[0];
    StateRest(Ahead(a, 1), FlowSequenceEntryMappingKeyState);
    RestAhead(b, [t], more);
    AheadTwice(a, 1, 1, FlowSequenceEntryMappingKeyState, FlowSequenceEntryMappingValueState);
    RestAhead(Ahead(a, 2), [], more);
    assert [] + more == more;
    AbsentKeyStep(b);
    AbsentValueStep(c);
  }

  lemma AbsentKeyStep(m: Machine)
    requires Ready(m) && m.state == FlowSequenceEntryMappingKeyState && m.pos < |m.tokens|
    requires m.tokens[m.pos].ValueToken? || m.tokens[m.pos].FlowEntryToken?
    ensures StateMachine(m) == Outcome(Ahead(m, 1).(state := FlowSequenceEntryMappingValueState), Some(Blank))
  {
  }

  lemma AbsentValueStep(m: Machine)
    requires Ready(m) && m.state == FlowSequenceEntryMappingValueState && m.pos < |m.tokens| &&
             !m.tokens[m.pos].ValueToken?
    ensures StateMachine(m) == Outcome(m.(state := FlowSequenceEntryMappingEndState), Some(Blank))
  {
  }

  /**
   In all other shapes the skipped token is missed: it is the closing bracket, or an entry comes where none can be,
   which is an error within four steps.
   */
  lemma AbsentKeyBreaks(a: Machine, items: FlowItems, rest: seq<Token>, es: seq<Event>)
    requires KeyReady(a, items, rest) && items.key.Absent? && !AbsentKeyIsRead(items.value, items.rest)
    ensures var r := Run(Ahead(a, 1).(state := FlowSequenceEntryMappingKeyState), es);
            if items.value.NoValue? && items.rest == NoFlowItems(false) then LosesBracket(r.m)
            else Iterate(r, 4).m.error == ParserError
    ensures Comes(Run(Ahead(a, 1).(state := FlowSequenceEntryMappingKeyState), es), FlowItemsReadable(items),
                  PairTarget(a, items, es))
  {
    hide Comes, StateMachine, Rest, Left, Ready, FlowItemsTokens, PairTarget;
    var b, t := Ahead(a, 1).(state := FlowSequenceEntryMappingKeyState), PairTarget(a, items, es);
    StateRest(Ahead(a, 1), FlowSequenceEntryMappingKeyState);
    if items.value.NoValue? && items.rest == NoFlowItems(false) {
      BracketNext(items, rest);
      RestAhead(b, [FlowSequenceEndToken], rest);
      Breaks(Run(b, es), t);
    } else {
      EntryNext(items, a.directives, rest);
      var ts := Rest(b);
      RestAt(b, ts, 0);
      RestAt(b, ts, 1);
      EntryBreaks(b, es, t);
    }
  }

  lemma BracketNext(items: FlowItems, rest: seq<Token>)
    requires items.FlowSinglePair? && items.key.Absent? && items.value.NoValue? && items.rest == NoFlowItems(false)
    ensures PlaceTokens(items.key) + (ValueTokens(items.value) + (FlowItemsTokens(items.rest, false) + rest)) ==
            [FlowSequenceEndToken] + rest
  {
  }

  /** Behind the skipped token comes what begins an entry. */
  lemma EntryNext(items: FlowItems, ds: seq<TagDirective>, rest: seq<Token>)
    requires items.FlowSinglePair? && FlowItemsFit(items, ds) && items.key.Absent?
    requires !AbsentKeyIsRead(items.value, items.rest) && !(items.value.NoValue? && items.rest == NoFlowItems(false))
    ensures var ts := PlaceTokens(items.key) + (ValueTokens(items.value) + (FlowItemsTokens(items.rest, false) + rest));
            && |ts| > 1 && (ts[0].ValueToken? || ts[0].FlowEntryToken?) && (Begins(ts[1]) || ts[1].KeyToken?)
  {
    hide Tokens, YamlText.Fits, Begins;
    var v, more := items.value, items.rest;
    if v.HasValue? {
      ValueTextFits(items, ds);
      TextBegins(v.place.text, ds, false, false);
    } else if more.FlowItem? {
      TextBegins(more.node, ds, false, false);
    }
  }

  lemma ValueTextFits(items: FlowItems, ds: seq<TagDirective>)
    requires items.FlowSinglePair? && FlowItemsFit(items, ds)
    ensures items.value.HasValue? && items.value.place.Present? ==>
            YamlText.Fits(items.value.place.text, ds, false, false)
  {
    hide YamlText.Fits;
    assert ValueFits(items.value, ds, false, false);
    if items.value.HasValue? { assert PlaceFits(items.value.place, ds, false, false); }
  }

  /** Four steps to the error. */
  lemma EntryBreaks(b: Machine, es: seq<Event>, t: Run)
    requires Ready(b) && b.state == FlowSequenceEntryMappingKeyState && b.marks != [] && b.pos + 1 < |b.tokens|
    requires b.tokens[b.pos].ValueToken? || b.tokens[b.pos].FlowEntryToken?
    requires Begins(b.tokens[b.pos + 1]) || b.tokens[b.pos + 1].KeyToken?
    ensures Iterate(Run(b, es), 4).m.error == ParserError && Comes(Run(b, es), false, t)
  {
    hide StateMachine, Begins, Iterate;
    var c := Ahead(b, 1).(state := FlowSequenceEntryMappingValueState);
    var d, e := c.(state := FlowSequenceEntryMappingEndState), c.(state := FlowSequenceEntryState);
    NotAnEnd(b.tokens[b.pos + 1]);
    AbsentKeyStep(b);
    AbsentValueStep(c);
    PairEndStep(d);
    NoCommaStep(e);
    assert Next(Run(b, es)) == Run(c, es + [Blank]);
    assert Next(Run(c, es + [Blank])) == Run(d, es + [Blank] + [Blank]);
    assert Next(Run(d, es + [Blank] + [Blank])) == Run(e, es + [Blank] + [Blank] + [MappingEndEvent]);
    FourSteps(Run(b, es));
    assert Meets(Iterate(Run(b, es), 4), false, t);
  }

  lemma FourSteps(r: Run)
    ensures Iterate(r, 4) == Next(Next(Next(Next(r))))
  {
    hide Next;
    var s := Next(r);
    assert Iterate(Next(Next(Next(s))), 0) == Next(Next(Next(s)));
    assert Iterate(Next(Next(s)), 1) == Next(Next(Next(s)));
    assert Iterate(Next(s), 2) == Next(Next(Next(s)));
    assert Iterate(s, 3) == Next(Next(Next(s)));
  }

  lemma NotAnEnd(t: Token)
    requires Begins(t) || t.KeyToken?
    ensures !t.FlowSequenceEndToken? && !t.ValueToken? && !t.FlowEntryToken?
  {
  }

  lemma NoCommaStep(m: Machine)
    requires Ready(m) && m.state == FlowSequenceEntryState && m.marks != [] && m.pos < |m.tokens|
    requires !m.tokens[m.pos].FlowSequenceEndToken? && !m.tokens[m.pos].FlowEntryToken?
    ensures StateMachine(m).event == None && StateMachine(m).m.error == ParserError
  {
  }

  lemma SinglePairKeyStep(b: Machine)
    requires b.state == FlowSequenceEntryMappingKeyState && b.pos < |b.tokens|
    requires var t := b.tokens[b.pos]; !t.ValueToken? && !t.FlowEntryToken? && !t.FlowSequenceEndToken?
    ensures StateMachine(b) == ParseNode(Push(b, FlowSequenceEntryMappingValueState), false, false)
  {
    hide ParseNode;
  }

  lemma {:induction false} SinglePairValueRead(a: Machine, k: nat, items: FlowItems, rest: seq<Token>, es: seq<Event>)
    requires items.FlowSinglePair? && FlowItemsFit(items, a.directives) && a.states != [] && a.marks != [] &&
             Ready(Ahead(a, k))
    requires Rest(Ahead(a, k)) == ValueTokens(items.value) + (FlowItemsTokens(items.rest, false) + rest)
    ensures Comes(Run(Ahead(a, k).(state := FlowSequenceEntryMappingValueState), es),
                  ValueReadable(items.value) && FlowItemsReadable(items.rest),
                    Run(Left(a, k + |ValueTokens(items.value)| + |FlowItemsTokens(items.rest, false)|),
                        es + (ValueEvents(items.value, a.directives) +
                              ([MappingEndEvent] + FlowItemsEvents(items.rest, a.directives))) + [SequenceEndEvent]))
    decreases items, 1
  {
    hide Comes, CollectionReady, StateMachine, Rest, NodeBehind, Left, Begins, Ready, YamlText.Fits, ValueTokens,
      ValueEvents, FlowItemsTokens, FlowItemsEvents, Closes;
    var ds, v, j := a.directives, items.value, |ValueTokens(items.value)|;
    var more := FlowItemsTokens(items.rest, false) + rest;
    var here, end := FlowSequenceEntryMappingValueState, FlowSequenceEntryMappingEndState;
    FlowItemsFollow(items.rest, rest);
    var b := Ahead(a, k).(state := here);
    StateRest(Ahead(a, k), here);
    RestAhead(b, ValueTokens(v), more);
    ReadyAhead(b, j);
    AheadTwice(a, k, j, here, end);
    PairEndRead(a, k + j, items.rest, rest, es + ValueEvents(v, ds));
    assert es + ValueEvents(v, ds) + ([MappingEndEvent] + FlowItemsEvents(items.rest, ds))
        == es + (ValueEvents(v, ds) + ([MappingEndEvent] + FlowItemsEvents(items.rest, ds)));
    SinglePairValueStep(b);
    EndsFacts();
    ValueThen(b, v, more, EndsPairInSequence, end, false, false, es, FlowItemsReadable(items.rest),
              Run(Left(a, k + j + |FlowItemsTokens(items.rest, false)|),
                  es + (ValueEvents(v, ds) + ([MappingEndEvent] + FlowItemsEvents(items.rest, ds))) +
                      [SequenceEndEvent]));
  }

  lemma SinglePairValueStep(m: Machine)
    requires m.state == FlowSequenceEntryMappingValueState && m.pos < |m.tokens|
    ensures StateMachine(m) ==
            if m.tokens[m.pos].ValueToken? then
              NodeBehind(m, EndsPairInSequence, FlowSequenceEntryMappingEndState, false, false)
            else EmitEmpty(m.(state := FlowSequenceEntryMappingEndState))
  {
    hide NodeBehind;
  }

  /** The mapping of a single pair ends by itself, and the sequence goes on. */
  lemma {:induction false} PairEndRead(a: Machine, k: nat, items: FlowItems, rest: seq<Token>, es: seq<Event>)
    requires FlowItemsFit(items, a.directives) && a.states != [] && a.marks != [] && Ready(Ahead(a, k))
    requires Rest(Ahead(a, k)) == FlowItemsTokens(items, false) + rest
    ensures Comes(Run(Ahead(a, k).(state := FlowSequenceEntryMappingEndState), es), FlowItemsReadable(items),
                  Run(Left(a, k + |FlowItemsTokens(items, false)|),
                      es + ([MappingEndEvent] + FlowItemsEvents(items, a.directives)) + [SequenceEndEvent]))
    decreases items, 6
  {
    hide Comes, StateMachine, Left, Ready, FlowItemsTokens, FlowItemsEvents, Closes, CollectionReady;
    var own := FlowSequenceEntryState;
    InsideReady(a, k, FlowSequenceFirstEntryState, own, FlowItemsTokens(items, false) + rest);
    FlowItemsRead(Ahead(a, k).(state := own), items, false, rest, es + [MappingEndEvent]);
    LeftAhead(a, k, own, |FlowItemsTokens(items, false)|);
    PairEndThen(a, k, items, rest, es);
  }

  /** The same where only the bracket is left. */
  lemma PairEndLast(a: Machine, k: nat, rest: seq<Token>, es: seq<Event>)
    requires a.states != [] && a.marks != [] && Ready(Ahead(a, k))
    requires Rest(Ahead(a, k)) == FlowItemsTokens(NoFlowItems(false), false) + rest
    ensures Comes(Run(Ahead(a, k).(state := FlowSequenceEntryMappingEndState), es), true,
                  Run(Left(a, k + |FlowItemsTokens(NoFlowItems(false), false)|),
                      es + ([MappingEndEvent] + FlowItemsEvents(NoFlowItems(false), a.directives)) +
                          [SequenceEndEvent]))
  {
    hide Comes, StateMachine, Left, Ready, FlowItemsTokens, FlowItemsEvents, Closes, CollectionReady;
    var items, own := NoFlowItems(false), FlowSequenceEntryState;
    InsideReady(a, k, FlowSequenceFirstEntryState, own, FlowItemsTokens(items, false) + rest);
    FlowSequenceEndRead(Ahead(a, k).(state := own), items, false, rest, es + [MappingEndEvent]);
    LeftAhead(a, k, own, |FlowItemsTokens(items, false)|);
    PairEndThen(a, k, items, rest, es);
  }

  /** The step at the end of the pair. */
  lemma PairEndThen(a: Machine, k: nat, items: FlowItems, rest: seq<Token>, es: seq<Event>)
    requires a.states != [] && a.marks != [] && Ready(Ahead(a, k))
    requires Rest(Ahead(a, k)) == FlowItemsTokens(items, false) + rest
    requires Comes(Run(Ahead(a, k).(state := FlowSequenceEntryState), es + [MappingEndEvent]), FlowItemsReadable(items),
                   Run(Left(a, k + |FlowItemsTokens(items, false)|),
                       es + [MappingEndEvent] + FlowItemsEvents(items, a.directives) + [SequenceEndEvent]))
    ensures Comes(Run(Ahead(a, k).(state := FlowSequenceEntryMappingEndState), es), FlowItemsReadable(items),
                  Run(Left(a, k + |FlowItemsTokens(items, false)|),
                      es + ([MappingEndEvent] + FlowItemsEvents(items, a.directives)) + [SequenceEndEvent]))
  {
    hide Comes, StateMachine, Left, Ready, FlowItemsTokens, FlowItemsEvents, Closes;
    var b, own := Ahead(a, k).(state := FlowSequenceEntryMappingEndState), FlowSequenceEntryState;
    FlowItemsFollow(items, rest);
    StateRest(Ahead(a, k), FlowSequenceEntryMappingEndState);
    RestAhead(b, [], FlowItemsTokens(items, false) + rest);
    assert [] + (FlowItemsTokens(items, false) + rest) == FlowItemsTokens(items, false) + rest;
    assert es + [MappingEndEvent] + FlowItemsEvents(items, a.directives) ==
           es + ([MappingEndEvent] + FlowItemsEvents(items, a.directives));
    PairEndStep(b);
    EventThen(b, es, Ahead(a, k).(state := own), MappingEndEvent, FlowItemsReadable(items),
              Run(Left(a, k + |FlowItemsTokens(items, false)|),
                  es + ([MappingEndEvent] + FlowItemsEvents(items, a.directives)) + [SequenceEndEvent]));
  }

  lemma PairEndStep(m: Machine)
    requires m.state == FlowSequenceEntryMappingEndState && m.pos < |m.tokens| && m.error == NoError
    ensures StateMachine(m) == Outcome(m.(state := FlowSequenceEntryState), Some(MappingEndEvent))
  {
  }

  // ---------------------------------------------------------------- flow mappings

  lemma {:induction false} FlowMappingRead(m: Machine, t: Text, rest: seq<Token>, block: bool, indentless: bool,
                                           es: seq<Event>)
    requires NodeReady(m, t, rest, block, indentless) && t.FlowMappingText?
    ensures NodeRead(m, ParseNode(m, block, indentless), es, t)
    decreases t, 2
  {
    hide PropsTokens, ParseNode, Resolve, Comes, FlowPairsTokens, FlowPairsEvents, Rest, Follows, CollectionReady,
      Tokens, Events, YamlText.Fits, Full, Returned, Left;
    var p, c, tail := t.props, FlowMappingStartToken, FlowPairsTokens(t.flowPairs, true) + rest;
    var start := StartOf(c, p, m.directives);
    FlowMappingShape(t, m.directives, rest, block, indentless);
    OpeningRead(m, p, c, tail, block, indentless);
    CollectionOpened(m, |PropsTokens(p)|, c, FlowMappingKeyState, tail);
    FlowPairsRead(Ahead(m, |PropsTokens(p)|).(state := FirstOf(c)), t.flowPairs, true, rest, es + [start]);
    assert es + [start] + FlowPairsEvents(t.flowPairs, m.directives) + [MappingEndEvent] ==
           es + Events(t, m.directives);
  }

  lemma FlowMappingShape(t: Text, ds: seq<TagDirective>, rest: seq<Token>, block: bool, indentless: bool)
    requires t.FlowMappingText? && YamlText.Fits(t, ds, block, indentless)
    ensures FlowPairsFit(t.flowPairs, ds) && Resolve(ds, t.props.tag).Some?
    ensures Tokens(t) + rest == PropsTokens(t.props) +
            ([FlowMappingStartToken] + (FlowPairsTokens(t.flowPairs, true) + rest))
    ensures |Tokens(t)| == |PropsTokens(t.props)| + 1 + |FlowPairsTokens(t.flowPairs, true)|
    ensures Events(t, ds) == [StartOf(FlowMappingStartToken, t.props, ds)] +
            (FlowPairsEvents(t.flowPairs, ds) + [MappingEndEvent])
  {
    hide PropsTokens, FlowPairsTokens, FlowPairsEvents, Full, Resolve;
  }

  lemma {:induction false} FlowPairsRead(m: Machine, pairs: FlowPairs, first: bool, rest: seq<Token>, es: seq<Event>)
    requires CollectionReady(m, first, FlowMappingFirstKeyState, FlowMappingKeyState,
                             FlowPairsTokens(pairs, first) + rest)
    requires FlowPairsFit(pairs, m.directives)
    ensures Comes(Run(m, es), FlowPairsReadable(pairs), Run(Left(Inner(m, first), |FlowPairsTokens(pairs, first)|),
                                    es + FlowPairsEvents(pairs, m.directives) + [MappingEndEvent]))
    decreases pairs, 5
  {
    hide FlowPairsTokens, FlowPairsEvents, CollectionReady;
    match pairs
    case NoFlowPairs(_) => FlowMappingEndRead(m, pairs, first, rest, es);
    case FlowKeyOnly(_, _) => KeyOnlyRead(m, pairs, first, rest, es);
    case FlowPair(_, _, _) => FlowPairRead(m, pairs, first, rest, es);
  }

  lemma FlowMappingEndRead(m: Machine, pairs: FlowPairs, first: bool, rest: seq<Token>, es: seq<Event>)
    requires CollectionReady(m, first, FlowMappingFirstKeyState, FlowMappingKeyState,
                             FlowPairsTokens(pairs, first) + rest)
    requires pairs.NoFlowPairs?
    ensures Comes(Run(m, es), true, Run(Left(Inner(m, first), |FlowPairsTokens(pairs, first)|),
                                    es + FlowPairsEvents(pairs, m.directives) + [MappingEndEvent]))
  {
    hide Comes, CollectionReady, StateMachine, Rest, Close, Left;
    var n, tail := Inner(m, first), FlowPairsTokens(pairs, first) + rest;
    InnerReady(m, first, FlowMappingFirstKeyState, FlowMappingKeyState, tail);
    FlowMappingStep(m, first, tail);
    if first || !pairs.comma {
      assert tail == [FlowMappingEndToken] + rest;
      CloseIsLeft(n, MappingEndEvent);
      LastStep(m, es, Left(n, 1), MappingEndEvent);
    } else {
      assert tail == [FlowEntryToken] + ([FlowMappingEndToken] + rest);
      RestAhead(n, [FlowEntryToken], [FlowMappingEndToken] + rest);
      RestAhead(Ahead(n, 1), [FlowMappingEndToken], rest);
      CloseIsLeft(Ahead(n, 1), MappingEndEvent);
      LeftAgain(n, 1, 1);
      LastStep(m, es, Left(n, 2), MappingEndEvent);
    }
    assert es + [] + [MappingEndEvent] == es + [MappingEndEvent];
  }

  lemma FlowMappingStep(m: Machine, first: bool, tail: seq<Token>)
    requires CollectionReady(m, first, FlowMappingFirstKeyState, FlowMappingKeyState, tail) && tail != []
    ensures var n := Inner(m, first);
            && n.pos < |n.tokens| && n.tokens[n.pos] == tail[0]
            && (tail[0].FlowMappingEndToken? ==> StateMachine(m) == Close(n, MappingEndEvent))
            && (!tail[0].FlowMappingEndToken? && first ==> StateMachine(m) == FlowMappingItem(n, tail[0]))
            && (tail[0].FlowEntryToken? && !first && |tail| > 1 ==>
                StateMachine(m) == FlowMappingItem(Ahead(n, 1), tail[1]))
  {
    hide Close, FlowMappingItem;
    var n := Inner(m, first);
    assert Rest(n)[0] == tail[0];
    if |tail| > 1 { assert Rest(n)[1] == tail[1]; }
  }

  lemma FlowMappingEntryStep(m: Machine, first: bool, entry: seq<Token>)
    requires CollectionReady(m, first, FlowMappingFirstKeyState, FlowMappingKeyState, Comma(first) + entry)
    requires entry != [] && !entry[0].FlowMappingEndToken?
    ensures StateMachine(m) == FlowMappingItem(Separated(m, first), entry[0])
  {
    hide FlowMappingItem, StateMachine, CollectionReady;
    FlowMappingStep(m, first, Comma(first) + entry);
    if first {
      assert Comma(first) + entry == entry;
    } else {
      assert (Comma(first) + entry)[1] == entry[0];
    }
  }

  lemma FlowPairsFollow(pairs: FlowPairs, rest: seq<Token>)
    ensures var more := FlowPairsTokens(pairs, false) + rest;
            && Follows(more) && EndsFlowValue(more[0]) && !more[0].ValueToken?
            && forall v: Value :: Follows(ValueTokens(v) + more) && EndsFlowKey((ValueTokens(v) + more)[0])
  {
    hide Tokens;
    var more := FlowPairsTokens(pairs, false) + rest;
    forall v: Value ensures Follows(ValueTokens(v) + more) && EndsFlowKey((ValueTokens(v) + more)[0]) {
      if v.NoValue? { assert [] + more == more; }
    }
  }

  /** At an entry that is only a key: what the step does, and where the mapping goes on. */
  lemma KeyOnlyReady(m: Machine, t: Text, first: bool, more: seq<Token>)
    requires CollectionReady(m, first, FlowMappingFirstKeyState, FlowMappingKeyState, Comma(first) + (Tokens(t) + more))
    requires YamlText.Fits(t, m.directives, false, false) && Follows(more)
    ensures var a, own, next := Separated(m, first), FlowMappingKeyState, FlowMappingEmptyValueState;
            && Ready(m) && a.states != [] && a.marks != [] && a.directives == m.directives
            && NodeReady(Push(a, next), t, more, false, false)
            && StateMachine(m) == ParseNode(Push(a, next), false, false)
            && Ready(Ahead(a, |Tokens(t)|)) && Rest(Ahead(a, |Tokens(t)|)) == more
            && CollectionReady(Ahead(a, |Tokens(t)|).(state := own), false, FlowMappingFirstKeyState, own, more)
            && forall j: nat :: Left(Inner(m, first), |Comma(first)| + j) == Left(a, j)
  {
    hide CollectionReady, StateMachine, Rest, ParseNode, Left, Tokens, Begins, Ready, YamlText.Fits, Separated, Inner,
      NodeReady, Closes, NodeBehind;
    var a, own, entry := Separated(m, first), FlowMappingKeyState, Tokens(t) + more;
    TextBegins(t, m.directives, false, false);
    EntryReady(m, first, FlowMappingFirstKeyState, own, entry);
    NodeHere(a, t, more, FlowMappingEmptyValueState, false, false);
    NoEnd(a.tokens[a.pos]);
    FlowMappingEntryStep(m, first, entry);
    InsideReady(a, |Tokens(t)|, FlowMappingFirstKeyState, own, more);
  }

  lemma {:induction false} KeyOnlyRead(m: Machine, pairs: FlowPairs, first: bool, rest: seq<Token>, es: seq<Event>)
    requires CollectionReady(m, first, FlowMappingFirstKeyState, FlowMappingKeyState,
                             FlowPairsTokens(pairs, first) + rest)
    requires FlowPairsFit(pairs, m.directives) && pairs.FlowKeyOnly?
    ensures Comes(Run(m, es), FlowPairsReadable(pairs), Run(Left(Inner(m, first), |FlowPairsTokens(pairs, first)|),
                                    es + FlowPairsEvents(pairs, m.directives) + [MappingEndEvent]))
    decreases pairs, 4
  {
    hide Comes, CollectionReady, StateMachine, Rest, ParseNode, Left, Tokens, Events, Ready, YamlText.Fits, Separated,
      NodeReady, Closes, Ahead, Inner, FlowPairsTokens, FlowPairsEvents;
    var t, ds, more := pairs.node, m.directives, FlowPairsTokens(pairs.rest, false) + rest;
    KeyOnlyShape(pairs, first, ds, rest);
    var a := Separated(m, first);
    FlowPairsFollow(pairs.rest, rest);
    KeyOnlyReady(m, t, first, more);
    EmptyValueRead(a, |Tokens(t)|, pairs.rest, rest, es + Events(t, ds));
    var tailEvents := [Blank] + FlowPairsEvents(pairs.rest, ds);
    assert es + Events(t, ds) + tailEvents == es + FlowPairsEvents(pairs, ds);
    NodeThen(m, a, t, more, FlowMappingEmptyValueState, false, false, es, FlowPairsReadable(pairs.rest),
             Run(Left(a, |Tokens(t)| + |FlowPairsTokens(pairs.rest, false)|),
                 es + FlowPairsEvents(pairs, ds) + [MappingEndEvent]));
  }

  lemma KeyOnlyShape(pairs: FlowPairs, first: bool, ds: seq<TagDirective>, rest: seq<Token>)
    requires pairs.FlowKeyOnly?
    ensures FlowPairsTokens(pairs, first) + rest ==
            Comma(first) + (Tokens(pairs.node) + (FlowPairsTokens(pairs.rest, false) + rest))
    ensures |FlowPairsTokens(pairs, first)| ==
            |Comma(first)| + (|Tokens(pairs.node)| + |FlowPairsTokens(pairs.rest, false)|)
    ensures FlowPairsEvents(pairs, ds) == Events(pairs.node, ds) + ([Blank] + FlowPairsEvents(pairs.rest, ds))
  {
    hide Tokens, Events, Comma;
  }

  /** The value that a lone key does not have, and the rest of the mapping. */
  lemma {:induction false} EmptyValueRead(a: Machine, k: nat, pairs: FlowPairs, rest: seq<Token>, es: seq<Event>)
    requires FlowPairsFit(pairs, a.directives) && a.states != [] && a.marks != [] && Ready(Ahead(a, k))
    requires Rest(Ahead(a, k)) == FlowPairsTokens(pairs, false) + rest
    ensures Comes(Run(Ahead(a, k).(state := FlowMappingEmptyValueState), es), FlowPairsReadable(pairs),
                    Run(Left(a, k + |FlowPairsTokens(pairs, false)|),
                        es + ([Blank] + FlowPairsEvents(pairs, a.directives)) + [MappingEndEvent]))
    decreases pairs, 6
  {
    hide Comes, StateMachine, Left, Ready, FlowPairsTokens, FlowPairsEvents, Follows, CollectionReady, Rest;
    var b, own, more := Ahead(a, k), FlowMappingKeyState, FlowPairsTokens(pairs, false) + rest;
    FlowPairsFollow(pairs, rest);
    MoreThere(more);
    InsideReady(a, k, FlowMappingFirstKeyState, own, more);
    FlowPairsRead(b.(state := own), pairs, false, rest, es + [Blank]);
    LeftAhead(a, k, own, |FlowPairsTokens(pairs, false)|);
    assert es + [Blank] + FlowPairsEvents(pairs, a.directives) == es + ([Blank] + FlowPairsEvents(pairs, a.directives));
    EmptyValueStep(b, more);
    EventThen(b.(state := FlowMappingEmptyValueState), es, b.(state := own), Blank, FlowPairsReadable(pairs),
              Run(Left(a, k + |FlowPairsTokens(pairs, false)|),
                  es + ([Blank] + FlowPairsEvents(pairs, a.directives)) + [MappingEndEvent]));
  }

  lemma MoreThere(more: seq<Token>)
    ensures Follows(more) ==> more != []
  {
  }

  lemma EmptyValueStep(b: Machine, more: seq<Token>)
    requires Ready(b) && Rest(b) == more && more != []
    ensures Ready(b.(state := FlowMappingEmptyValueState))
    ensures StateMachine(b.(state := FlowMappingEmptyValueState)) ==
            Outcome(b.(state := FlowMappingKeyState), Some(Blank))
  {
    hide NodeBehind;
  }

  lemma {:induction false} FlowPairRead(m: Machine, pairs: FlowPairs, first: bool, rest: seq<Token>, es: seq<Event>)
    requires CollectionReady(m, first, FlowMappingFirstKeyState, FlowMappingKeyState,
                             FlowPairsTokens(pairs, first) + rest)
    requires FlowPairsFit(pairs, m.directives) && pairs.FlowPair?
    ensures Comes(Run(m, es), FlowPairsReadable(pairs), Run(Left(Inner(m, first), |FlowPairsTokens(pairs, first)|),
                                    es + FlowPairsEvents(pairs, m.directives) + [MappingEndEvent]))
    decreases pairs, 4
  {
    hide Comes, CollectionReady, StateMachine, Rest, NodeBehind, Left, Ready, YamlText.Fits, Separated, Inner, Closes,
      PlaceTokens, PlaceEvents, ValueTokens, ValueEvents, Begins, PlaceFits, PlaceReady, FlowPairsTokens,
      FlowPairsEvents, Ahead;
    var ds, next, v := m.directives, FlowMappingValueState, pairs.value;
    var afterKey := ValueTokens(v) + (FlowPairsTokens(pairs.rest, false) + rest);
    FlowPairShape(pairs, first, ds, rest);
    var a, k := Separated(m, first), 1 + |PlaceTokens(pairs.key)|;
    FlowPairReady(m, pairs.key, first, afterKey, v, pairs.rest, rest);
    FlowValueRead(a, k, pairs, rest, es + PlaceEvents(pairs.key, ds));
    var tailEvents := ValueEvents(v, ds) + FlowPairsEvents(pairs.rest, ds);
    assert es + PlaceEvents(pairs.key, ds) + tailEvents == es + FlowPairsEvents(pairs, ds);
    PlaceThen(m, a, pairs.key, afterKey, EndsFlowKey, next, false, false, es,
              ValueReadable(v) && FlowPairsReadable(pairs.rest),
              Run(Left(a, k + |ValueTokens(v)| + |FlowPairsTokens(pairs.rest, false)|),
                  es + FlowPairsEvents(pairs, ds) + [MappingEndEvent]));
  }

  lemma FlowPairShape(pairs: FlowPairs, first: bool, ds: seq<TagDirective>, rest: seq<Token>)
    requires pairs.FlowPair?
    ensures FlowPairsTokens(pairs, first) + rest ==
            Comma(first) +
            ([KeyToken] +
             (PlaceTokens(pairs.key) + (ValueTokens(pairs.value) + (FlowPairsTokens(pairs.rest, false) + rest))))
    ensures |FlowPairsTokens(pairs, first)| ==
            |Comma(first)| + (1 + |PlaceTokens(pairs.key)| + |ValueTokens(pairs.value)| +
                              |FlowPairsTokens(pairs.rest, false)|)
    ensures FlowPairsEvents(pairs, ds) ==
            PlaceEvents(pairs.key, ds) + (ValueEvents(pairs.value, ds) + FlowPairsEvents(pairs.rest, ds))
  {
    hide PlaceTokens, PlaceEvents, ValueTokens, ValueEvents, Comma;
  }

  /** At KEY in a flow mapping: what the step does. */
  lemma FlowPairReady(m: Machine, key: Place, first: bool, afterKey: seq<Token>, v: Value, pairs: FlowPairs,
                      rest: seq<Token>)
    requires CollectionReady(m, first, FlowMappingFirstKeyState, FlowMappingKeyState,
                             Comma(first) + ([KeyToken] + (PlaceTokens(key) + afterKey)))
    requires afterKey == ValueTokens(v) + (FlowPairsTokens(pairs, false) + rest) &&
             PlaceFits(key, m.directives, false, false)
    ensures var a, k := Separated(m, first), 1 + |PlaceTokens(key)|;
            && Ready(m) && a.states != [] && a.marks != [] && a.directives == m.directives
            && StateMachine(m) == NodeBehind(a, EndsFlowKey, FlowMappingValueState, false, false)
            && PlaceReady(a, key, afterKey, EndsFlowKey, false, false)
            && Ready(Ahead(a, k)) && Rest(Ahead(a, k)) == afterKey
            && forall j: nat :: Left(Inner(m, first), |Comma(first)| + j) == Left(a, j)
  {
    hide CollectionReady, StateMachine, Rest, NodeBehind, Left, Ready, Separated, Inner, Closes, PlaceTokens,
      ValueTokens, Begins, ParseNode, Close, PlaceFits, PlaceReady;
    var entry := [KeyToken] + (PlaceTokens(key) + afterKey);
    EntryReady(m, first, FlowMappingFirstKeyState, FlowMappingKeyState, entry);
    FlowMappingEntryStep(m, first, entry);
    FlowPairsFollow(pairs, rest);
    EndsFacts();
    PlaceBehind(Separated(m, first), KeyToken, key, afterKey, EndsFlowKey, false, false);
  }

  /** From the value of a pair to the end of the mapping. */
  lemma {:induction false} FlowValueRead(a: Machine, k: nat, pairs: FlowPairs, rest: seq<Token>, es: seq<Event>)
    requires pairs.FlowPair? && FlowPairsFit(pairs, a.directives) && a.states != [] && a.marks != [] &&
             Ready(Ahead(a, k))
    requires Rest(Ahead(a, k)) == ValueTokens(pairs.value) + (FlowPairsTokens(pairs.rest, false) + rest)
    ensures Comes(Run(Ahead(a, k).(state := FlowMappingValueState), es),
                  ValueReadable(pairs.value) && FlowPairsReadable(pairs.rest),
                    Run(Left(a, k + |ValueTokens(pairs.value)| + |FlowPairsTokens(pairs.rest, false)|),
                        es + (ValueEvents(pairs.value, a.directives) + FlowPairsEvents(pairs.rest, a.directives)) +
                            [MappingEndEvent]))
    decreases pairs, 3
  {
    hide Comes, CollectionReady, StateMachine, Rest, NodeBehind, Left, Begins, Ready, YamlText.Fits, ValueTokens,
      ValueEvents, FlowPairsTokens, FlowPairsEvents, Closes;
    var ds, v, j := a.directives, pairs.value, |ValueTokens(pairs.value)|;
    var more, own, here := FlowPairsTokens(pairs.rest, false) + rest, FlowMappingKeyState, FlowMappingValueState;
    FlowPairsFollow(pairs.rest, rest);
    var b := Ahead(a, k).(state := here);
    StateRest(Ahead(a, k), here);
    RestAhead(b, ValueTokens(v), more);
    ReadyAhead(b, j);
    AheadTwice(a, k, j, here, own);
    InsideReady(a, k + j, FlowMappingFirstKeyState, own, more);
    FlowPairsRead(Ahead(a, k + j).(state := own), pairs.rest, false, rest, es + ValueEvents(v, ds));
    LeftAhead(a, k + j, own, |FlowPairsTokens(pairs.rest, false)|);
    assert es + ValueEvents(v, ds) + FlowPairsEvents(pairs.rest, ds) ==
           es + (ValueEvents(v, ds) + FlowPairsEvents(pairs.rest, ds));
    FlowValueStep(b);
    EndsFacts();
    ValueThen(b, v, more, EndsFlowValue, own, false, false, es, FlowPairsReadable(pairs.rest),
              Run(Left(a, k + j + |FlowPairsTokens(pairs.rest, false)|),
                  es + (ValueEvents(v, ds) + FlowPairsEvents(pairs.rest, ds)) + [MappingEndEvent]));
  }

  lemma FlowValueStep(m: Machine)
    requires m.state == FlowMappingValueState && m.pos < |m.tokens|
    ensures StateMachine(m) ==
            if m.tokens[m.pos].ValueToken? then NodeBehind(m, EndsFlowValue, FlowMappingKeyState, false, false)
                               else EmitEmpty(m.(state := FlowMappingKeyState))
  {
    hide NodeBehind;
  }
}
