/**
 Whole streams of texts: documents with and without their indicators and directives.  If all of it is readable, the
 parser comes to the end of the stream with the events of the documents; otherwise it breaks.
 */
module YamlStreamParse {
  import opened Common
  import opened YamlEvents
  import opened YamlParse
  import opened YamlParseSafety
  import opened YamlText
  import opened YamlTextParse

  /** The directives stand in front of DOCUMENT-START; `ends` is how many DOCUMENT-END tokens follow the document. */
  datatype DocumentText = DocumentText(explicit: bool, directives: seq<Token>, root: Place, ends: nat)

  /** At most one version, which is 1.1, and no handle twice; `ds` are the handles declared so far. */
  predicate DirectivesFit(ts: seq<Token>, version: bool, ds: seq<TagDirective>)
    decreases |ts|
  {
    ts != [] ==>
      match ts[0]
      case VersionDirectiveToken(major, minor) => !version && major == 1 && minor == 1 &&
          DirectivesFit(ts[1..], true, ds)
      case TagDirectiveToken(d) =>
        (forall e <- ds :: e.handle != d.handle) && DirectivesFit(ts[1..], version, ds + [d])
      case _ => false
  }

  function TagsOf(ts: seq<Token>): seq<TagDirective> {
    if ts == [] then []
    else (if ts[0].TagDirectiveToken? then [ts[0].directive] else []) + TagsOf(ts[1..])
  }

  predicate HasVersion(ts: seq<Token>) {
    ts != [] && (ts[0].VersionDirectiveToken? || HasVersion(ts[1..]))
  }

  /** The handles that tags may use in the document. */
  function Handles(d: DocumentText): seq<TagDirective> {
    WithDefaults(TagsOf(d.directives))
  }

  /** Only the first document may begin without DOCUMENT-START, and then its root is not left out. */
  predicate DocumentsFit(docs: seq<DocumentText>, first: bool) {
    docs != [] ==>
      && (docs[0].explicit || (first && docs[0].root.Present? && docs[0].directives == []))
      && DirectivesFit(docs[0].directives, false, [])
      && PlaceFits(docs[0].root, Handles(docs[0]), true, false) && DocumentsFit(docs[1..], false)
  }

  /** The condition under which the parser reads the stream. */
  predicate DocumentsReadable(docs: seq<DocumentText>) {
    docs != [] ==> PlaceReadable(docs[0].root) && DocumentsReadable(docs[1..])
  }

  function Ends(n: nat): (ts: seq<Token>)
    ensures |ts| == n
  {
    if n == 0 then [] else [DocumentEndToken] + Ends(n - 1)
  }

  function DocumentsTokens(docs: seq<DocumentText>): seq<Token> {
    if docs == [] then [StreamEndToken]
    else (if docs[0].explicit then docs[0].directives + [DocumentStartToken] else []) +
         (PlaceTokens(docs[0].root) + (Ends(docs[0].ends) + DocumentsTokens(docs[1..])))
  }

  /** As the code has it, an implicit document is not marked as such; its end is. */
  function OpeningEvent(d: DocumentText): Event {
    DocumentStartEvent(HasVersion(d.directives), TagsOf(d.directives), false)
  }

  function DocumentsEvents(docs: seq<DocumentText>): seq<Event> {
    if docs == [] then [StreamEndEvent]
    else
      var d := docs[0];
      [OpeningEvent(d)] + (PlaceEvents(d.root, Handles(d)) +
                           ([DocumentEndEvent(d.ends == 0)] + DocumentsEvents(docs[1..])))
  }

  function StreamTokens(docs: seq<DocumentText>): seq<Token> {
    [StreamStartToken] + DocumentsTokens(docs)
  }

  // ---------------------------------------------------------------- between documents

  /** In front of a document, with DOCUMENT-END tokens still to be skipped unless it is the first one. */
  predicate Between(m: Machine, first: bool, tail: seq<Token>) {
    && Ready(m) && m.states == [] && m.directives == [] && Rest(m) == tail
    && m.state == if first then ImplicitDocumentStartState else DocumentStartState
  }

  lemma {:induction false} EndsSkipped(m: Machine, n: nat, tail: seq<Token>)
    requires Ready(m) && Rest(m) == Ends(n) + tail && tail != [] && !tail[0].DocumentEndToken?
    ensures SkipDocumentEnds(m) == Ahead(m, n) && Rest(Ahead(m, n)) == tail && Ready(Ahead(m, n))
    decreases n
  {
    hide Rest;
    if n == 0 {
      assert [] + tail == tail;
      RestAhead(m, [], tail);
    } else {
      assert Ends(n) + tail == [DocumentEndToken] + (Ends(n - 1) + tail);
      RestAhead(m, [DocumentEndToken], Ends(n - 1) + tail);
      assert Skip(m) == Ahead(m, 1);
      EndsSkipped(Ahead(m, 1), n - 1, tail);
    }
  }

  /** Behind the skipped DOCUMENT-END tokens. */
  function Behind(m: Machine, first: bool, n: nat): Machine {
    if first then m else Ahead(m, n)
  }

  /** What the step in front of a document does, by the next token. */
  predicate StartStep(m: Machine, b: Machine, first: bool, t: Token) {
    && (t.StreamEndToken? ==> StateMachine(m) == Outcome(Skip(b.(state := EndState)), Some(StreamEndEvent)))
    && (StartsDocument(t) ==> StateMachine(m) == ExplicitDocument(b))
    && (first && Begins(t) ==> StateMachine(m) == ImplicitDocument(b))
  }

  lemma StartSteps(m: Machine, b: Machine, first: bool)
    requires m.state == if first then ImplicitDocumentStartState else DocumentStartState
    requires b == (if first then m else SkipDocumentEnds(m)) && b.pos < |b.tokens| && Ready(m)
    ensures StartStep(m, b, first, b.tokens[b.pos])
  {
    hide ExplicitDocument, ImplicitDocument, StateMachine, SkipDocumentEnds, StartsDocument;
    StartStateStep(m, first);
    var t := b.tokens[b.pos];
    BeginsNoDocument(t);
    assert Peek(b) == Some(t);
  }

  lemma StartStateStep(m: Machine, first: bool)
    requires m.state == if first then ImplicitDocumentStartState else DocumentStartState
    ensures StateMachine(m) == ParseDocumentStart(m, first)
  {
    hide ParseDocumentStart;
  }

  lemma BeginsNoDocument(t: Token)
    ensures Begins(t) ==> !StartsDocument(t) && !t.StreamEndToken?
    ensures StartsDocument(t) ==> !t.StreamEndToken?
  {
  }

  lemma BehindReady(m: Machine, first: bool, n: nat, tail: seq<Token>)
    requires Between(m, first, Ends(n) + tail) && tail != [] && !tail[0].DocumentEndToken? && (first ==> n == 0)
    ensures var b := Behind(m, first, n);
            && Ready(m) && Ready(b) && Rest(b) == tail && b.states == [] && b.directives == [] && b.pos < |b.tokens|
            && StartStep(m, b, first, tail[0])
  {
    hide StartStep;
    var b := Behind(m, first, n);
    EndsSkipped(m, n, tail);
    assert Ahead(m, 0) == m;
    RestAhead(b, [], tail);
    assert [] + tail == tail;
    StartSteps(m, b, first);
  }

  /** Directives are collected up to the first other token, and then the defaults are added. */
  lemma {:induction false} DirectivesRead(b: Machine, ts: seq<Token>, rest: seq<Token>, version: bool,
                                          tags: seq<TagDirective>)
    requires Ready(b) && Rest(b) == ts + rest && DirectivesFit(ts, version, b.directives)
    requires rest != [] && !rest[0].VersionDirectiveToken? && !rest[0].TagDirectiveToken?
    ensures ProcessDirectives(b, version, tags) ==
            Directives(Ahead(b, |ts|).(directives := WithDefaults(b.directives + TagsOf(ts))),
                       version || HasVersion(ts), tags + TagsOf(ts))
    ensures Rest(Ahead(b, |ts|)) == rest && Ready(Ahead(b, |ts|))
    decreases |ts|
  {
    hide Rest, WithDefaults, Declared, ProcessDirectives, Skip, DirectivesFit, HasVersion, TagsOf;
    RestAhead(b, ts, rest);
    if ts == [] {
      NoDirectivesLeft(b, version, tags);
    } else {
      var one := [ts[0]];
      FirstDirective(ts, version, b.directives);
      OneDirective(b, ts[0], version, tags);
      var n := BehindDirective(b, ts, rest);
      DirectivesRead(n, ts[1..], rest, version || ts[0].VersionDirectiveToken?, tags + TagsOf(one));
      assert b.directives + TagsOf(one) + TagsOf(ts[1..]) == b.directives + TagsOf(ts);
      assert tags + TagsOf(one) + TagsOf(ts[1..]) == tags + TagsOf(ts);
    }
  }

  /** Behind the first directive. */
  lemma BehindDirective(b: Machine, ts: seq<Token>, rest: seq<Token>) returns (n: Machine)
    requires Ready(b) && Rest(b) == ts + rest && ts != [] && rest != [] && !ts[0].StreamEndToken?
    ensures n == Skip(b).(directives := b.directives + TagsOf([ts[0]])) && Ready(n) && Rest(n) == ts[1..] + rest
    ensures forall ds :: Ahead(n, |ts| - 1).(directives := ds) == Ahead(b, |ts|).(directives := ds)
  {
    hide Rest, TagsOf;
    assert ts + rest == [ts[0]] + (ts[1..] + rest);
    RestAhead(b, [ts[0]], ts[1..] + rest);
    n := Skip(b).(directives := b.directives + TagsOf([ts[0]]));
    SameRest(n, Ahead(b, 1));
  }

  lemma NoDirectivesLeft(b: Machine, version: bool, tags: seq<TagDirective>)
    requires Ready(b) && b.pos < |b.tokens|
    requires !b.tokens[b.pos].VersionDirectiveToken? && !b.tokens[b.pos].TagDirectiveToken?
    ensures ProcessDirectives(b, version, tags) ==
            Directives(Ahead(b, 0).(directives := WithDefaults(b.directives + TagsOf([]))), version || HasVersion([]),
                       tags + TagsOf([]))
  {
    assert b.directives + [] == b.directives && tags + [] == tags;
  }

  lemma SameRest(m: Machine, n: Machine)
    requires m.tokens == n.tokens && m.pos == n.pos
    ensures Rest(m) == Rest(n)
  {
  }

  lemma FirstDirective(ts: seq<Token>, version: bool, ds: seq<TagDirective>)
    requires DirectivesFit(ts, version, ds) && ts != []
    ensures ts[0].VersionDirectiveToken? || ts[0].TagDirectiveToken?
    ensures DirectivesFit([ts[0]], version, ds) && TagsOf(ts) == TagsOf([ts[0]]) + TagsOf(ts[1..])
    ensures DirectivesFit(ts[1..], version || ts[0].VersionDirectiveToken?, ds + TagsOf([ts[0]]))
    ensures HasVersion(ts) == (ts[0].VersionDirectiveToken? || HasVersion(ts[1..]))
  {
    OneTag(ts[0]);
    assert ds + [] == ds;
  }

  lemma OneTag(t: Token)
    ensures TagsOf([t]) == if t.TagDirectiveToken? then [t.directive] else []
    ensures [t][1..] == []
  {
  }

  lemma OneDirective(b: Machine, t: Token, version: bool, tags: seq<TagDirective>)
    requires Ready(b) && b.pos < |b.tokens| && b.tokens[b.pos] == t && DirectivesFit([t], version, b.directives)
    ensures var n := Skip(b).(directives := b.directives + TagsOf([t]));
            && Skip(b) == Ahead(b, 1)
            && ProcessDirectives(b, version, tags) ==
               ProcessDirectives(n, version || t.VersionDirectiveToken?, tags + TagsOf([t]))
  {
    hide WithDefaults, Ahead;
    OneTag(t);
    assert Skip(b) == Ahead(b, 1) by { SkipAhead(b); }
    assert b.directives + [] == b.directives && tags + [] == tags;
    if t.VersionDirectiveToken? {
      assert ProcessDirectives(b, version, tags) == ProcessDirectives(Skip(b), true, tags);
    } else {
      assert ProcessDirectives(b, version, tags) ==
             ProcessDirectives(Skip(b.(directives := b.directives + [t.directive])), version, tags + [t.directive]);
    }
  }

  lemma SkipAhead(b: Machine)
    requires Ready(b) && b.pos < |b.tokens| && !b.tokens[b.pos].StreamEndToken?
    ensures Skip(b) == Ahead(b, 1)
  {
  }

  // ---------------------------------------------------------------- documents

  /** The root, or its absence, in an explicit document. */
  lemma ExplicitRoot(b: Machine, d: DocumentText, tail: seq<Token>, es: seq<Event>, good: bool, t: Run)
    requires Ready(b) && b.states == [] && b.directives == [] && DirectivesFit(d.directives, false, [])
    requires Rest(b) == d.directives + ([DocumentStartToken] + (PlaceTokens(d.root) + tail))
    requires RootTail(tail) && PlaceFits(d.root, Handles(d), true, false)
    requires Comes(Run(Ahead(b, |d.directives| + 1 + |PlaceTokens(d.root)|).(state := DocumentEndState,
                                                                             directives := Handles(d)),
                       es + [OpeningEvent(d)] + PlaceEvents(d.root, Handles(d))), good, t)
    ensures ExplicitDocument(b).event == Some(OpeningEvent(d))
    ensures Comes(Run(ExplicitDocument(b).m, es + [OpeningEvent(d)]), PlaceReadable(d.root) && good, t)
  {
    hide Comes, Rest, PlaceTokens, PlaceEvents, PlaceFits, Ready, RootTail, ExplicitDocument, Returned, Handles,
      OpeningEvent, DirectivesFit;
    ExplicitStart(b, d, PlaceTokens(d.root) + tail);
    var k := |d.directives| + 1;
    var c := Push(Ahead(b, k), DocumentEndState).(state := DocumentContentState, directives := Handles(d));
    ContentReturned(b, k, |PlaceTokens(d.root)|, Handles(d));
    RootRead(c, d.root, tail, es + [OpeningEvent(d)], good, t);
  }

  /** What may follow the root of a document. */
  predicate RootTail(tail: seq<Token>) {
    Follows(tail) && (StartsDocument(tail[0]) || tail[0].DocumentEndToken? || tail[0].StreamEndToken?)
  }

  lemma ExplicitStart(b: Machine, d: DocumentText, rest: seq<Token>)
    requires Ready(b) && b.states == [] && b.directives == [] && DirectivesFit(d.directives, false, [])
    requires Rest(b) == d.directives + ([DocumentStartToken] + rest)
    ensures var c := Push(Ahead(b, |d.directives| + 1), DocumentEndState).(state := DocumentContentState,
                                                                           directives := Handles(d));
            ExplicitDocument(b) == Outcome(c, Some(OpeningEvent(d))) && Ready(c) && Rest(c) == rest
  {
    hide ProcessDirectives, Rest, WithDefaults, DirectivesFit;
    var k := |d.directives|;
    DirectivesRead(b, d.directives, [DocumentStartToken] + rest, false, []);
    assert [] + TagsOf(d.directives) == TagsOf(d.directives);
    RestAhead(Ahead(b, k), [DocumentStartToken], rest);
    var c := Push(Ahead(b, k + 1), DocumentEndState).(state := DocumentContentState, directives := Handles(d));
    SameRest(c, Ahead(Ahead(b, k), 1));
  }

  lemma ContentReturned(b: Machine, k: nat, j: nat, ds: seq<TagDirective>)
    requires b.states == []
    ensures var c := Push(Ahead(b, k), DocumentEndState).(state := DocumentContentState, directives := ds);
            && c.states == [DocumentEndState]
            && Returned(c, j) == Ahead(b, k + j).(state := DocumentEndState, directives := ds)
  {
    assert [] + [DocumentEndState] == [DocumentEndState];
    assert Init([DocumentEndState]) == [];
  }

  lemma RootRead(c: Machine, root: Place, tail: seq<Token>, es: seq<Event>, good: bool, t: Run)
    requires Ready(c) && c.state == DocumentContentState && c.states == [DocumentEndState]
    requires Rest(c) == PlaceTokens(root) + tail && PlaceFits(root, c.directives, true, false) && RootTail(tail)
    requires Comes(Run(Returned(c, |PlaceTokens(root)|), es + PlaceEvents(root, c.directives)), good, t)
    ensures Comes(Run(c, es), PlaceReadable(root) && good, t)
  {
    hide Comes, Rest, PlaceTokens, PlaceEvents, PlaceFits, Ready, Returned, RootTail;
    if root.Absent? {
      NoRootRead(c, tail, es, good, t);
    } else {
      RootTextRead(c, root.text, tail, es, good, t);
    }
  }

  lemma NoRootRead(c: Machine, tail: seq<Token>, es: seq<Event>, good: bool, t: Run)
    requires Ready(c) && c.state == DocumentContentState && c.states == [DocumentEndState]
    requires Rest(c) == PlaceTokens(Absent) + tail && RootTail(tail)
    requires Comes(Run(Returned(c, |PlaceTokens(Absent)|), es + PlaceEvents(Absent, c.directives)), good, t)
    ensures Comes(Run(c, es), good, t)
  {
    hide Comes, Rest, StateMachine, Ready, Returned, Follows, StartsDocument;
    TailThere(tail);
    NoRoot(c, tail);
    EventThen(c, es, Returned(c, 0), Blank, good, t);
  }

  lemma RootTextRead(c: Machine, root: Text, tail: seq<Token>, es: seq<Event>, good: bool, t: Run)
    requires Ready(c) && c.state == DocumentContentState && c.states == [DocumentEndState]
    requires Rest(c) == PlaceTokens(Present(root)) + tail && PlaceFits(Present(root), c.directives, true, false) &&
             RootTail(tail)
    requires Comes(Run(Returned(c, |PlaceTokens(Present(root))|), es + PlaceEvents(Present(root), c.directives)),
                   good, t)
    ensures Comes(Run(c, es), Readable(root) && good, t)
  {
    hide Comes, Rest, StateMachine, Tokens, Events, ParseNode, YamlText.Fits, Ready, Returned, Follows, StartsDocument;
    RootNode(c, root, tail);
    TextThen(c, root, tail, true, false, es, good, t);
  }

  lemma TailThere(tail: seq<Token>)
    ensures RootTail(tail) ==> tail != []
  {
  }

  lemma NoRoot(c: Machine, tail: seq<Token>)
    requires Ready(c) && c.state == DocumentContentState && c.states != [] && Rest(c) == [] + tail && tail != []
    requires StartsDocument(tail[0]) || tail[0].DocumentEndToken? || tail[0].StreamEndToken?
    ensures StateMachine(c) == Outcome(Returned(c, 0), Some(Blank))
  {
    hide ParseNode;
    RestAhead(c, [], tail);
  }

  lemma RootNode(c: Machine, root: Text, tail: seq<Token>)
    requires Ready(c) && c.state == DocumentContentState
    requires Rest(c) == Tokens(root) + tail && YamlText.Fits(root, c.directives, true, false)
    ensures StateMachine(c) == ParseNode(c, true, false)
  {
    hide Tokens, ParseNode, Begins, YamlText.Fits, Rest;
    TextBegins(root, c.directives, true, false);
    RestAhead(c, Tokens(root), tail);
    NoDocument(c.tokens[c.pos]);
  }

  lemma NoDocument(t: Token)
    requires Begins(t)
    ensures !StartsDocument(t) && !t.DocumentEndToken? && !t.StreamEndToken?
  {
  }

  lemma ImplicitRoot(b: Machine, d: DocumentText, tail: seq<Token>, es: seq<Event>, good: bool, t: Run)
    requires Ready(b) && b.states == [] && b.directives == [] && d.directives == [] && d.root.Present?
    requires Rest(b) == Tokens(d.root.text) + tail && RootTail(tail) &&
             YamlText.Fits(d.root.text, Handles(d), true, false)
    requires Comes(Run(Ahead(b, |Tokens(d.root.text)|).(state := DocumentEndState, directives := Handles(d)),
                       es + [OpeningEvent(d)] + Events(d.root.text, Handles(d))), good, t)
    ensures ImplicitDocument(b).event == Some(OpeningEvent(d))
    ensures Comes(Run(ImplicitDocument(b).m, es + [OpeningEvent(d)]), Readable(d.root.text) && good, t)
  {
    hide Comes, Rest, Tokens, Events, StateMachine, YamlText.Fits, Follows, ParseNode, Ready, Returned,
      ImplicitDocument, Handles, OpeningEvent;
    var c := Push(b, DocumentEndState).(state := BlockNodeState, directives := Handles(d));
    ImplicitStart(b, d, tail);
    BlockNodeReady(b, c, |Tokens(d.root.text)|, Handles(d));
    TextThen(c, d.root.text, tail, true, false, es + [OpeningEvent(d)], good, t);
  }

  lemma ImplicitStart(b: Machine, d: DocumentText, tail: seq<Token>)
    requires Ready(b) && b.states == [] && b.directives == [] && d.directives == [] && d.root.Present?
    requires Rest(b) == Tokens(d.root.text) + tail && YamlText.Fits(d.root.text, Handles(d), true, false)
    ensures ImplicitDocument(b) ==
            Outcome(Push(b, DocumentEndState).(state := BlockNodeState, directives := Handles(d)),
                    Some(OpeningEvent(d)))
  {
    hide Rest, Tokens, ProcessDirectives, Begins, YamlText.Fits, WithDefaults;
    var root := d.root.text;
    TextBegins(root, Handles(d), true, false);
    RestAhead(b, Tokens(root), tail);
    NoDocument(b.tokens[b.pos]);
    assert [] + (Tokens(root) + tail) == Tokens(root) + tail;
    DirectivesRead(b, [], Tokens(root) + tail, false, []);
    assert [] + TagsOf([]) == [];
    AheadNone(b);
  }

  lemma AheadNone(b: Machine)
    requires Ready(b)
    ensures Ahead(b, 0) == b
  {
  }

  lemma BlockNodeReady(b: Machine, c: Machine, k: nat, ds: seq<TagDirective>)
    requires Ready(b) && b.states == []
    requires c == Push(b, DocumentEndState).(state := BlockNodeState, directives := ds)
    ensures Ready(c) && Rest(c) == Rest(b) && c.states != []
    ensures StateMachine(c) == ParseNode(c, true, false)
    ensures Returned(c, k) == Ahead(b, k).(state := DocumentEndState, directives := ds)
  {
    hide ParseNode, Rest;
    SameRest(c, b);
    PushReturnedHere(b.(directives := ds), DocumentEndState, k);
  }

  /** Behind the root: the end of the document. */
  lemma EndRead(c: Machine, n: nat, tail: seq<Token>)
    requires Ready(c) && c.state == DocumentEndState && c.states == [] && Rest(c) == Ends(n) + tail
    requires tail != [] && !tail[0].DocumentEndToken?
    ensures var o := StateMachine(c);
            && o.event == Some(DocumentEndEvent(n == 0))
            && Between(o.m, false, Ends(if n == 0 then 0 else n - 1) + tail)
            && o.m.error == NoError
  {
    hide Rest;
    EndsBegin(n, tail);
    if n == 0 {
      RestAhead(c, [], tail);
      assert c.(directives := [], state := DocumentStartState) == StateMachine(c).m;
      SameRest(StateMachine(c).m, c);
    } else {
      RestAhead(c, [DocumentEndToken], Ends(n - 1) + tail);
      SameRest(StateMachine(c).m, Ahead(c, 1));
    }
  }

  lemma EndsBegin(n: nat, tail: seq<Token>)
    ensures n == 0 ==> Ends(n) + tail == tail && [] + tail == tail
    ensures n > 0 ==> Ends(n) + tail == [DocumentEndToken] + (Ends(n - 1) + tail)
  {
  }

  lemma DocumentsBegin(docs: seq<DocumentText>, first: bool)
    requires DocumentsFit(docs, first)
    ensures var ts := DocumentsTokens(docs);
            && ts != [] && !ts[0].DocumentEndToken?
            && (docs == [] ==> ts == [StreamEndToken])
            && (docs != [] && docs[0].explicit ==> StartsDocument(ts[0]))
            && (docs != [] && !docs[0].explicit ==> Begins(ts[0]) && first)
  {
    if docs != [] && !docs[0].explicit {
      TextBegins(docs[0].root.text, Handles(docs[0]), true, false);
    }
  }

  /** What follows a root: the document's end, the next document, or the end of the stream. */
  lemma RootFollows(n: nat, docs: seq<DocumentText>)
    requires DocumentsFit(docs, false)
    ensures RootTail(Ends(n) + DocumentsTokens(docs))
  {
    DocumentsBegin(docs, false);
  }

  /** From in front of the documents to the end of the stream. */
  lemma {:induction false} DocumentsRead(m: Machine, docs: seq<DocumentText>, first: bool, n: nat, es: seq<Event>)
      returns (f: Machine)
    requires Between(m, first, Ends(n) + DocumentsTokens(docs)) && DocumentsFit(docs, first) && (first ==> n == 0)
    ensures f.state.EndState? && f.error == NoError
    ensures Comes(Run(m, es), DocumentsReadable(docs), Run(f, es + DocumentsEvents(docs)))
    decreases |docs|
  {
    hide Comes, Rest, StateMachine, Closes, Begins, DocumentsTokens, DocumentsFit, StartStep;
    DocumentsBegin(docs, first);
    BehindReady(m, first, n, DocumentsTokens(docs));
    var b := Behind(m, first, n);
    StepMeans(m, b, first, DocumentsTokens(docs)[0]);
    if docs == [] {
      f := Skip(b.(state := EndState));
      LastStep(m, es, f, StreamEndEvent);
    } else {
      f := DocumentRead(m, b, docs, first, es);
    }
  }

  lemma StepMeans(m: Machine, b: Machine, first: bool, t: Token)
    requires StartStep(m, b, first, t)
    ensures t.StreamEndToken? ==> StateMachine(m) == Outcome(Skip(b.(state := EndState)), Some(StreamEndEvent))
    ensures StartsDocument(t) ==> StateMachine(m) == ExplicitDocument(b)
    ensures first && Begins(t) ==> StateMachine(m) == ImplicitDocument(b)
  {
  }

  /** The tokens in front of the root. */
  function Front(d: DocumentText): seq<Token> {
    if d.explicit then d.directives + [DocumentStartToken] else []
  }

  lemma {:induction false} DocumentRead(m: Machine, b: Machine, docs: seq<DocumentText>, first: bool, es: seq<Event>)
      returns (f: Machine)
    requires docs != [] && DocumentsFit(docs, first) && Ready(m) && Ready(b) && b.states == [] && b.directives == []
    requires Rest(b) == DocumentsTokens(docs)
    requires StateMachine(m) == if docs[0].explicit then ExplicitDocument(b) else ImplicitDocument(b)
    ensures f.state.EndState? && f.error == NoError
    ensures Comes(Run(m, es), DocumentsReadable(docs), Run(f, es + DocumentsEvents(docs)))
    decreases |docs|, 0
  {
    hide Comes, Rest, StateMachine, ExplicitDocument, ImplicitDocument, YamlText.Fits, PlaceTokens, PlaceEvents, Ends,
      Between, RootTail, Ready, Handles, OpeningEvent, Readable, DirectivesFit;
    var d, tail := docs[0], Ends(docs[0].ends) + DocumentsTokens(docs[1..]);
    RootFollows(d.ends, docs[1..]);
    var k := |Front(d)| + |PlaceTokens(d.root)|;
    var es1 := es + [OpeningEvent(d)] + PlaceEvents(d.root, Handles(d));
    var c := Ahead(b, k).(state := DocumentEndState, directives := Handles(d));
    DocumentSplit(docs);
    RootEnd(b, Front(d) + PlaceTokens(d.root), tail, Handles(d));
    DocumentsBegin(docs[1..], false);
    EndRead(c, d.ends, DocumentsTokens(docs[1..]));
    var o := StateMachine(c);
    var left := if d.ends == 0 then 0 else d.ends - 1;
    f := DocumentsRead(o.m, docs[1..], false, left, es1 + [DocumentEndEvent(d.ends == 0)]);
    assert es1 + [DocumentEndEvent(d.ends == 0)] + DocumentsEvents(docs[1..]) == es + DocumentsEvents(docs);
    var t, good := Run(f, es + DocumentsEvents(docs)), DocumentsReadable(docs[1..]);
    StepThen(c, es1, o, good, t);
    DocumentOpened(m, b, docs, first, es, t);
  }

  /** From in front of a document to behind its root. */
  lemma DocumentOpened(m: Machine, b: Machine, docs: seq<DocumentText>, first: bool, es: seq<Event>, t: Run)
    requires docs != [] && DocumentsFit(docs, first) && Ready(m) && Ready(b) && b.states == [] && b.directives == []
    requires Rest(b) == DocumentsTokens(docs)
    requires StateMachine(m) == if docs[0].explicit then ExplicitDocument(b) else ImplicitDocument(b)
    requires var d := docs[0];
             Comes(Run(Ahead(b, |Front(d)| + |PlaceTokens(d.root)|).(state := DocumentEndState,
                                                                     directives := Handles(d)),
                       es + [OpeningEvent(d)] + PlaceEvents(d.root, Handles(d))), DocumentsReadable(docs[1..]), t)
    ensures Comes(Run(m, es), DocumentsReadable(docs), t)
  {
    hide Comes, Rest, StateMachine, ExplicitDocument, ImplicitDocument, YamlText.Fits, PlaceTokens, PlaceEvents, Ends,
      Between, RootTail, Ready, Handles, OpeningEvent, Readable, DirectivesFit;
    var d, tail, good := docs[0], Ends(docs[0].ends) + DocumentsTokens(docs[1..]), DocumentsReadable(docs[1..]);
    RootFollows(d.ends, docs[1..]);
    DocumentSplit(docs);
    if d.explicit {
      ExplicitRoot(b, d, tail, es, good, t);
      StepThen(m, es, ExplicitDocument(b), PlaceReadable(d.root) && good, t);
    } else {
      PresentPlace(d.root, Handles(d));
      assert [] + (PlaceTokens(d.root) + tail) == PlaceTokens(d.root) + tail;
      ImplicitRoot(b, d, tail, es, good, t);
      StepThen(m, es, ImplicitDocument(b), Readable(d.root.text) && good, t);
    }
  }

  lemma PresentPlace(p: Place, ds: seq<TagDirective>)
    ensures p.Present? ==> PlaceTokens(p) == Tokens(p.text) && PlaceEvents(p, ds) == Events(p.text, ds)
  {
  }

  /** The tokens of the first document. */
  lemma DocumentSplit(docs: seq<DocumentText>)
    requires docs != []
    ensures var d, tail := docs[0], Ends(docs[0].ends) + DocumentsTokens(docs[1..]);
            && DocumentsTokens(docs) == Front(d) + PlaceTokens(d.root) + tail
            && DocumentsTokens(docs) ==
               (if d.explicit then d.directives + ([DocumentStartToken] + (PlaceTokens(d.root) + tail))
                else [] + (PlaceTokens(d.root) + tail))
  {
    hide PlaceTokens, Ends;
    var d, p, tail := docs[0], PlaceTokens(docs[0].root), Ends(docs[0].ends) + DocumentsTokens(docs[1..]);
    assert DocumentsTokens(docs) == Front(d) + (p + tail);
    hide DocumentsTokens;
    assert Front(d) + (p + tail) == Front(d) + p + tail;
    assert d.explicit ==> Front(d) + (p + tail) == d.directives + ([DocumentStartToken] + (p + tail));
  }

  /** Behind the root. */
  lemma RootEnd(b: Machine, front: seq<Token>, tail: seq<Token>, ds: seq<TagDirective>)
    requires Ready(b) && Rest(b) == front + tail
    ensures var c := Ahead(b, |front|).(state := DocumentEndState, directives := ds);
            Ready(c) && Rest(c) == tail
  {
    RestAhead(b, front, tail);
    assert Rest(Ahead(b, |front|).(state := DocumentEndState, directives := ds)) == Rest(Ahead(b, |front|));
  }

  lemma {:induction false} RunForIterates(tokens: seq<Token>, n: nat)
    ensures RunFor(tokens, n) == Iterate(Run(Begin(tokens), []), n)
  {
    hide Next;
    if n > 0 {
      RunForIterates(tokens, n - 1);
      IterateSum(Run(Begin(tokens), []), n - 1, 1);
      OneIteration(RunFor(tokens, n - 1));
    }
  }

  lemma OneIteration(r: Run)
    ensures Iterate(r, 1) == Next(r)
  {
    hide Next;
    assert Iterate(Next(r), 0) == Next(r);
  }

  /** The run on a stream of texts ends with exactly their events, or breaks. */
  lemma StreamComes(docs: seq<DocumentText>) returns (f: Machine)
    requires DocumentsFit(docs, true)
    ensures f.state.EndState? && f.error == NoError
    ensures Comes(Run(Begin(StreamTokens(docs)), []), DocumentsReadable(docs), Run(f, StreamEventsOf(docs)))
  {
    hide Rest, StateMachine, DocumentsTokens, DocumentsEvents, Comes;
    var m := FirstStep(docs);
    f := DocumentsRead(m, docs, true, 0, [StreamStartEvent]);
    assert [] + [StreamStartEvent] == [StreamStartEvent];
    EventThen(Begin(StreamTokens(docs)), [], m, StreamStartEvent, DocumentsReadable(docs),
              Run(f, StreamEventsOf(docs)));
  }

  function StreamEventsOf(docs: seq<DocumentText>): seq<Event> {
    [StreamStartEvent] + DocumentsEvents(docs)
  }

  lemma FirstStep(docs: seq<DocumentText>) returns (m: Machine)
    ensures Between(m, true, Ends(0) + DocumentsTokens(docs)) && Ready(Begin(StreamTokens(docs)))
    ensures StateMachine(Begin(StreamTokens(docs))) == Outcome(m, Some(StreamStartEvent))
  {
    hide DocumentsTokens;
    var b := Begin(StreamTokens(docs));
    m := Ahead(b, 1).(state := ImplicitDocumentStartState);
    assert Rest(m) == StreamTokens(docs)[1..] == DocumentsTokens(docs);
    assert Ends(0) + DocumentsTokens(docs) == DocumentsTokens(docs);
  }
}
