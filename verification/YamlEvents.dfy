/**
 The events of the YAML package and their grammar, stated twice: by the trees that an event stream serializes,
 and by a recognizer that reads one event at a time with a stack.  The two are proved equal.
 */
module YamlEvents {
  import opened Common

  datatype ScalarStyle =
    | AnyScalarStyle | PlainStyle | SingleQuotedStyle | DoubleQuotedStyle | LiteralStyle | FoldedStyle
  datatype CollectionStyle = AnyStyle | BlockStyle | FlowStyle
  datatype TagDirective = TagDirective(handle: string, prefix: string)

  const DefaultDirectives: seq<TagDirective> := [TagDirective("!", "!"), TagDirective("!!", "tag:yaml.org,2002:")]

  predicate Declared(ds: seq<TagDirective>, handle: string) {
    exists d <- ds :: d.handle == handle
  }

  /** The default handles are added unless the document declares them itself. */
  function WithDefaults(ds: seq<TagDirective>): seq<TagDirective> {
    var with := if Declared(ds, DefaultDirectives[0].handle) then ds else ds + [DefaultDirectives[0]];
    if Declared(with, DefaultDirectives[1].handle) then with else with + [DefaultDirectives[1]]
  }

  datatype Event =
    | StreamStartEvent
    | StreamEndEvent
    | DocumentStartEvent(version: bool, tags: seq<TagDirective>, implicit: bool)
    | DocumentEndEvent(implicit: bool)
    | AliasEvent(anchor: string)
    | ScalarEvent(anchor: string, tag: string, value: string, implicit: bool, quotedImplicit: bool,
                  scalarStyle: ScalarStyle)
    | SequenceStartEvent(anchor: string, tag: string, implicit: bool, style: CollectionStyle)
    | SequenceEndEvent
    | MappingStartEvent(anchor: string, tag: string, implicit: bool, style: CollectionStyle)
    | MappingEndEvent

  // ---------------------------------------------------------------- trees

  datatype Node =
    | Leaf(leaf: Event)
    | Sequence(open: Event, items: Nodes)
    | Mapping(open: Event, entries: Pairs)

  datatype Nodes = NoNodes | MoreNodes(first: Node, rest: Nodes)
  datatype Pairs = NoPairs | MorePairs(key: Node, value: Node, rest: Pairs)

  datatype Document = Document(start: Event, root: Node, end: Event)

  predicate IsLeaf(e: Event) {
    e.ScalarEvent? || e.AliasEvent?
  }

  predicate WellFormed(n: Node) {
    match n
    case Leaf(e) => IsLeaf(e)
    case Sequence(open, items) => open.SequenceStartEvent? && WellFormedNodes(items)
    case Mapping(open, entries) => open.MappingStartEvent? && WellFormedPairs(entries)
  }

  predicate WellFormedNodes(ns: Nodes) {
    ns.MoreNodes? ==> WellFormed(ns.first) && WellFormedNodes(ns.rest)
  }

  predicate WellFormedPairs(ps: Pairs) {
    ps.MorePairs? ==> WellFormed(ps.key) && WellFormed(ps.value) && WellFormedPairs(ps.rest)
  }

  function NodeEvents(n: Node): seq<Event> {
    match n
    case Leaf(e) => [e]
    case Sequence(open, items) => [open] + (NodesEvents(items) + [SequenceEndEvent])
    case Mapping(open, entries) => [open] + (PairsEvents(entries) + [MappingEndEvent])
  }

  function NodesEvents(ns: Nodes): seq<Event> {
    if ns.NoNodes? then [] else NodeEvents(ns.first) + NodesEvents(ns.rest)
  }

  /** Every mapping holds an even number of nodes: keys and values. */
  function PairsEvents(ps: Pairs): seq<Event> {
    if ps.NoPairs? then [] else NodeEvents(ps.key) + (NodeEvents(ps.value) + PairsEvents(ps.rest))
  }

  predicate WellFormedDocument(d: Document) {
    d.start.DocumentStartEvent? && WellFormed(d.root) && d.end.DocumentEndEvent?
  }

  function DocumentsEvents(docs: seq<Document>): seq<Event> {
    if docs == [] then []
    else [docs[0].start] + (NodeEvents(docs[0].root) + ([docs[0].end] + DocumentsEvents(docs[1..])))
  }

  /** STREAM-START (DOCUMENT-START node DOCUMENT-END)* STREAM-END. */
  function StreamEvents(docs: seq<Document>): seq<Event> {
    [StreamStartEvent] + (DocumentsEvents(docs) + [StreamEndEvent])
  }

  ghost predicate IsStream(es: seq<Event>) {
    exists docs :: (forall d <- docs :: WellFormedDocument(d)) && es == StreamEvents(docs)
  }

  /** The beginning of some stream. */
  ghost predicate IsStreamPrefix(es: seq<Event>) {
    exists more :: IsStream(es + more)
  }

  // ---------------------------------------------------------------- the recognizer

  /** What is open: the innermost frame is the last.  InDocument(true) has its root node already. */
  datatype Frame = BeforeStream | InStream | InDocument(filled: bool) | InSequence | AtKey | AtValue | AfterStream

  predicate Awaits(f: Frame) {
    f == InDocument(false) || f == InSequence || f == AtKey || f == AtValue
  }

  /** The frame after one more node. */
  function Filled(f: Frame): (g: Frame)
    requires Awaits(f)
    ensures Unfilled(g) == f
  {
    match f
    case InDocument(_) => InDocument(true)
    case InSequence => InSequence
    case AtKey => AtValue
    case AtValue => AtKey
  }

  function Unfilled(f: Frame): Frame {
    match f
    case InDocument(_) => InDocument(false)
    case AtKey => AtValue
    case AtValue => AtKey
    case _ => f
  }

  function Last<T>(s: seq<T>): T
    requires s != []
  {
    s[|s| - 1]
  }

  function Init<T>(s: seq<T>): seq<T>
    requires s != []
  {
    s[..|s| - 1]
  }

  function Fill(stack: seq<Frame>): seq<Frame>
    requires stack != [] && Awaits(Last(stack))
  {
    Init(stack) + [Filled(Last(stack))]
  }

  function Read(stack: seq<Frame>, e: Event): Option<seq<Frame>> {
    if stack == [] then None
    else
      var top := Last(stack);
      match e
      case StreamStartEvent => if top == BeforeStream then Some(Init(stack) + [InStream]) else None
      case StreamEndEvent => if top == InStream then Some(Init(stack) + [AfterStream]) else None
      case DocumentStartEvent(_, _, _) => if top == InStream then Some(stack + [InDocument(false)]) else None
      case DocumentEndEvent(_) => if top == InDocument(true) then Some(Init(stack)) else None
      case AliasEvent(_) => if Awaits(top) then Some(Fill(stack)) else None
      case ScalarEvent(_, _, _, _, _, _) => if Awaits(top) then Some(Fill(stack)) else None
      case SequenceStartEvent(_, _, _, _) => if Awaits(top) then Some(Fill(stack) + [InSequence]) else None
      case MappingStartEvent(_, _, _, _) => if Awaits(top) then Some(Fill(stack) + [AtKey]) else None
      case SequenceEndEvent => if top == InSequence then Some(Init(stack)) else None
      case MappingEndEvent => if top == AtKey then Some(Init(stack)) else None
  }

  function ReadAll(stack: seq<Frame>, es: seq<Event>): Option<seq<Frame>>
    decreases |es|
  {
    if es == [] then Some(stack)
    else match Read(stack, es[0])
      case None => None
      case Some(next) => ReadAll(next, es[1..])
  }

  lemma {:induction false} ReadAllConcat(stack: seq<Frame>, a: seq<Event>, b: seq<Event>)
    ensures ReadAll(stack, a + b) ==
            (match ReadAll(stack, a) case None => None case Some(mid) => ReadAll(mid, b))
    decreases |a|
  {
    if a == [] {
      assert a + b == b;
    } else {
      assert (a + b)[0] == a[0] && (a + b)[1..] == a[1..] + b;
      match Read(stack, a[0])
      case None =>
      case Some(next) => ReadAllConcat(next, a[1..], b);
    }
  }

  lemma ReadThen(stack: seq<Frame>, e: Event, es: seq<Event>)
    requires Read(stack, e).Some?
    ensures ReadAll(stack, [e] + es) == ReadAll(Read(stack, e).value, es)
  {
    assert ([e] + es)[1..] == es;
  }

  // ---------------------------------------------------------------- every tree is read

  lemma {:induction false} NodeIsRead(stack: seq<Frame>, n: Node, more: seq<Event>)
    requires stack != [] && Awaits(Last(stack)) && WellFormed(n)
    ensures ReadAll(stack, NodeEvents(n) + more) == ReadAll(Fill(stack), more)
    decreases n
  {
    match n
    case Leaf(e) =>
      ReadThen(stack, e, more);
    case Sequence(open, items) =>
      hide ReadAll;
      NodesAreRead(Fill(stack) + [InSequence], items, [SequenceEndEvent] + more);
      CollectionIsRead(stack, open, InSequence, NodesEvents(items), SequenceEndEvent, more);
    case Mapping(open, entries) =>
      hide ReadAll;
      PairsAreRead(Fill(stack) + [AtKey], entries, [MappingEndEvent] + more);
      CollectionIsRead(stack, open, AtKey, PairsEvents(entries), MappingEndEvent, more);
  }

  lemma CollectionIsRead(stack: seq<Frame>, open: Event, f: Frame, body: seq<Event>, close: Event, more: seq<Event>)
    requires stack != [] && Awaits(Last(stack)) && Read(stack, open) == Some(Fill(stack) + [f])
    requires Read(Fill(stack) + [f], close) == Some(Init(Fill(stack) + [f]))
    requires ReadAll(Fill(stack) + [f], body + ([close] + more)) == ReadAll(Fill(stack) + [f], [close] + more)
    ensures ReadAll(stack, [open] + (body + [close]) + more) == ReadAll(Fill(stack), more)
  {
    hide Read, Fill, ReadAll;
    var inner := Fill(stack) + [f];
    ReadThen(inner, close, more);
    assert Init(inner) == Fill(stack);
    ReadThen(stack, open, body + ([close] + more));
    assert [open] + (body + [close]) + more == [open] + (body + ([close] + more));
  }

  lemma {:induction false} NodesAreRead(stack: seq<Frame>, ns: Nodes, more: seq<Event>)
    requires stack != [] && Last(stack) == InSequence && WellFormedNodes(ns)
    ensures ReadAll(stack, NodesEvents(ns) + more) == ReadAll(stack, more)
    decreases ns
  {
    hide ReadAll;
    if ns.NoNodes? {
      assert NodesEvents(ns) + more == more;
    } else {
      NodeIsRead(stack, ns.first, NodesEvents(ns.rest) + more);
      assert Fill(stack) == stack;
      NodesAreRead(stack, ns.rest, more);
      assert NodesEvents(ns) + more == NodeEvents(ns.first) + (NodesEvents(ns.rest) + more);
    }
  }

  lemma {:induction false} PairsAreRead(stack: seq<Frame>, ps: Pairs, more: seq<Event>)
    requires stack != [] && Last(stack) == AtKey && WellFormedPairs(ps)
    ensures ReadAll(stack, PairsEvents(ps) + more) == ReadAll(stack, more)
    decreases ps
  {
    hide ReadAll;
    if ps.NoPairs? {
      assert PairsEvents(ps) + more == more;
    } else {
      NodeIsRead(stack, ps.key, NodeEvents(ps.value) + (PairsEvents(ps.rest) + more));
      NodeIsRead(Fill(stack), ps.value, PairsEvents(ps.rest) + more);
      assert Fill(Fill(stack)) == stack;
      PairsAreRead(stack, ps.rest, more);
      assert PairsEvents(ps) + more == NodeEvents(ps.key) + (NodeEvents(ps.value) + (PairsEvents(ps.rest) + more));
    }
  }

  lemma {:induction false} DocumentsAreRead(docs: seq<Document>, more: seq<Event>)
    requires forall d <- docs :: WellFormedDocument(d)
    ensures ReadAll([InStream], DocumentsEvents(docs) + more) == ReadAll([InStream], more)
    decreases |docs|
  {
    hide ReadAll;
    if docs == [] {
      assert DocumentsEvents(docs) + more == more;
    } else {
      var d, rest := docs[0], DocumentsEvents(docs[1..]) + more;
      DocumentIsRead(d, rest);
      DocumentsAreRead(docs[1..], more);
      assert DocumentsEvents(docs) + more == [d.start] + (NodeEvents(d.root) + ([d.end] + rest));
    }
  }

  lemma DocumentIsRead(d: Document, rest: seq<Event>)
    requires WellFormedDocument(d)
    ensures ReadAll([InStream], [d.start] + (NodeEvents(d.root) + ([d.end] + rest))) == ReadAll([InStream], rest)
  {
    var open, closed := [InStream, InDocument(false)], [InStream, InDocument(true)];
    ReadThen([InStream], d.start, NodeEvents(d.root) + ([d.end] + rest));
    assert [InStream] + [InDocument(false)] == open;
    NodeIsRead(open, d.root, [d.end] + rest);
    assert Fill(open) == closed;
    ReadThen(closed, d.end, rest);
    assert Init(closed) == [InStream];
  }

  // ---------------------------------------------------------------- whatever is read is a tree

  const Accepted: Option<seq<Frame>> := Some([AfterStream])

  /** The events up to the end of the node awaited form a tree. */
  lemma {:induction false} TakeNode(stack: seq<Frame>, es: seq<Event>) returns (n: Node, rest: seq<Event>)
    requires stack != [] && Awaits(Last(stack)) && ReadAll(stack, es) == Accepted
    requires es != [] && !es[0].SequenceEndEvent? && !es[0].MappingEndEvent?
    ensures WellFormed(n) && es == NodeEvents(n) + rest && |rest| < |es|
    ensures ReadAll(Fill(stack), rest) == Accepted
    decreases |es|, 1
  {
    hide NodesEvents, PairsEvents, NodeEvents, Reachable, WellFormedNodes, WellFormedPairs;
    var e, tail := es[0], es[1..];
    assert es == [e] + tail;
    assert Read(stack, e).Some?;
    if e.SequenceStartEvent? {
      var items;
      items, rest := TakeNodes(Fill(stack) + [InSequence], tail);
      assert Init(Fill(stack) + [InSequence]) == Fill(stack);
      n := Sequence(e, items);
      SequenceParts(e, items, rest);
    } else if e.MappingStartEvent? {
      var entries;
      entries, rest := TakePairs(Fill(stack) + [AtKey], tail);
      assert Init(Fill(stack) + [AtKey]) == Fill(stack);
      n := Mapping(e, entries);
      MappingParts(e, entries, rest);
    } else {
      n, rest := Leaf(e), tail;
      LeafParts(e);
    }
  }

  lemma LeafParts(e: Event)
    ensures NodeEvents(Leaf(e)) == [e]
  {
  }

  lemma SequenceParts(e: Event, items: Nodes, rest: seq<Event>)
    ensures NodeEvents(Sequence(e, items)) + rest == [e] + (NodesEvents(items) + [SequenceEndEvent] + rest)
  {
  }

  lemma MappingParts(e: Event, entries: Pairs, rest: seq<Event>)
    ensures NodeEvents(Mapping(e, entries)) + rest == [e] + (PairsEvents(entries) + [MappingEndEvent] + rest)
  {
  }

  lemma {:induction false} TakeNodes(stack: seq<Frame>, es: seq<Event>) returns (ns: Nodes, rest: seq<Event>)
    requires |stack| > 1 && Last(stack) == InSequence && ReadAll(stack, es) == Accepted
    ensures WellFormedNodes(ns) && es == NodesEvents(ns) + [SequenceEndEvent] + rest && |rest| < |es|
    ensures ReadAll(Init(stack), rest) == Accepted
    decreases |es|, 2
  {
    if es[0].SequenceEndEvent? {
      ns, rest := NoNodes, es[1..];
      assert es == NodesEvents(ns) + [SequenceEndEvent] + rest;
    } else {
      var n, tail := TakeNode(stack, es);
      assert Fill(stack) == stack;
      var more;
      more, rest := TakeNodes(stack, tail);
      ns := MoreNodes(n, more);
      assert es == NodesEvents(ns) + [SequenceEndEvent] + rest;
    }
  }

  lemma {:induction false} TakePairs(stack: seq<Frame>, es: seq<Event>) returns (ps: Pairs, rest: seq<Event>)
    requires |stack| > 1 && Last(stack) == AtKey && ReadAll(stack, es) == Accepted
    ensures WellFormedPairs(ps) && es == PairsEvents(ps) + [MappingEndEvent] + rest && |rest| < |es|
    ensures ReadAll(Init(stack), rest) == Accepted
    decreases |es|, 2
  {
    if es[0].MappingEndEvent? {
      ps, rest := NoPairs, es[1..];
      assert es == PairsEvents(ps) + [MappingEndEvent] + rest;
    } else {
      var k, afterKey := TakeNode(stack, es);
      var v, afterValue := TakeNode(Fill(stack), afterKey);
      assert Fill(Fill(stack)) == stack;
      var more;
      more, rest := TakePairs(stack, afterValue);
      ps := MorePairs(k, v, more);
      PairsAssociate(k, v, more, rest);
    }
  }

  lemma PairsAssociate(k: Node, v: Node, more: Pairs, rest: seq<Event>)
    ensures PairsEvents(MorePairs(k, v, more)) + [MappingEndEvent] + rest ==
            NodeEvents(k) + (NodeEvents(v) + (PairsEvents(more) + [MappingEndEvent] + rest))
  {
  }

  lemma {:induction false} TakeDocuments(es: seq<Event>) returns (docs: seq<Document>)
    requires ReadAll([InStream], es) == Accepted
    ensures (forall d <- docs :: WellFormedDocument(d)) && es == DocumentsEvents(docs) + [StreamEndEvent]
    decreases |es|
  {
    if es[0].StreamEndEvent? {
      docs := [];
      assert Init([InStream]) + [AfterStream] == [AfterStream];
      NothingAfterStream(es[1..]);
      assert es == [] + [StreamEndEvent];
    } else {
      var d, rest := TakeDocument(es);
      var more := TakeDocuments(rest);
      docs := [d] + more;
      assert docs[1..] == more;
      assert es == DocumentsEvents(docs) + [StreamEndEvent];
    }
  }

  lemma TakeDocument(es: seq<Event>) returns (d: Document, rest: seq<Event>)
    requires ReadAll([InStream], es) == Accepted && es != [] && !es[0].StreamEndEvent?
    ensures WellFormedDocument(d) && es == [d.start] + (NodeEvents(d.root) + ([d.end] + rest)) && |rest| < |es|
    ensures ReadAll([InStream], rest) == Accepted
  {
    assert es[0].DocumentStartEvent?;
    assert [InStream] + [InDocument(false)] == [InStream, InDocument(false)];
    var n, tail := TakeNode([InStream, InDocument(false)], es[1..]);
    assert Fill([InStream, InDocument(false)]) == [InStream, InDocument(true)];
    d, rest := Document(es[0], n, tail[0]), tail[1..];
    assert Init([InStream, InDocument(true)]) == [InStream];
    assert es == [d.start] + (NodeEvents(d.root) + ([d.end] + rest));
  }

  lemma NothingAfterStream(es: seq<Event>)
    requires ReadAll([AfterStream], es).Some?
    ensures es == []
  {
  }

  /** The recognizer accepts exactly the streams of trees. */
  lemma AcceptedIffStream(es: seq<Event>)
    ensures ReadAll([BeforeStream], es) == Accepted <==> IsStream(es)
  {
    var bottom := [BeforeStream];
    assert Init(bottom) + [InStream] == [InStream];
    if ReadAll(bottom, es) == Accepted {
      assert es[0].StreamStartEvent?;
      var docs := TakeDocuments(es[1..]);
      assert es == StreamEvents(docs);
    }
    if IsStream(es) {
      var docs :| (forall d <- docs :: WellFormedDocument(d)) && es == StreamEvents(docs);
      ReadThen(bottom, StreamStartEvent, DocumentsEvents(docs) + [StreamEndEvent]);
      DocumentsAreRead(docs, [StreamEndEvent]);
      ReadThen([InStream], StreamEndEvent, []);
      assert [StreamEndEvent] + [] == [StreamEndEvent];
      assert Init([InStream]) + [AfterStream] == [AfterStream];
    }
  }

  // ---------------------------------------------------------------- prefixes

  /** The stacks that a run can reach. */
  predicate Reachable(stack: seq<Frame>) {
    || stack == [BeforeStream] || stack == [InStream] || stack == [AfterStream]
    || (|stack| > 1 && stack[0] == InStream && stack[1].InDocument?
        && (stack[1].filled || |stack| == 2)
        && forall i :: 2 <= i < |stack| ==> stack[i] == InSequence || stack[i] == AtKey || stack[i] == AtValue)
  }

  lemma ReadKeepsReachable(stack: seq<Frame>, e: Event)
    requires Reachable(stack) && Read(stack, e).Some?
    ensures Reachable(Read(stack, e).value)
  {
  }

  lemma {:induction false} ReadAllKeepsReachable(stack: seq<Frame>, es: seq<Event>)
    requires Reachable(stack) && ReadAll(stack, es).Some?
    ensures Reachable(ReadAll(stack, es).value)
    decreases |es|
  {
    if es != [] {
      ReadKeepsReachable(stack, es[0]);
      ReadAllKeepsReachable(Read(stack, es[0]).value, es[1..]);
    }
  }

  const Blank: Event := ScalarEvent("", "", "", true, false, PlainStyle)

  function StepsInFrame(f: Frame): nat {
    if f == InDocument(false) || f == AtValue || f == InStream then 1 else 0
  }

  /** Closes what is open. */
  lemma {:induction false} CanFinish(stack: seq<Frame>) returns (more: seq<Event>)
    requires Reachable(stack)
    ensures ReadAll(stack, more) == Accepted
    decreases if stack == [BeforeStream] then 1 else 0, |stack|, StepsInFrame(Last(stack))
  {
    if stack == [AfterStream] {
      more := [];
      return;
    }
    var top := Last(stack);
    var e :=
      match top
      case BeforeStream => StreamStartEvent
      case InStream => StreamEndEvent
      case InDocument(filled) => if filled then DocumentEndEvent(true) else Blank
      case InSequence => SequenceEndEvent
      case _ => if top == AtKey then MappingEndEvent else Blank;
    ReadKeepsReachable(stack, e);
    var tail := CanFinish(Read(stack, e).value);
    more := [e] + tail;
    assert more[1..] == tail;
  }

  /** What the recognizer reads without complaint is exactly what begins some stream. */
  lemma ReadIffPrefix(es: seq<Event>)
    ensures ReadAll([BeforeStream], es).Some? <==> IsStreamPrefix(es)
  {
    var bottom := [BeforeStream];
    if ReadAll(bottom, es).Some? {
      ReadAllKeepsReachable(bottom, es);
      var more := CanFinish(ReadAll(bottom, es).value);
      ReadAllConcat(bottom, es, more);
      AcceptedIffStream(es + more);
    }
    if IsStreamPrefix(es) {
      var more :| IsStream(es + more);
      AcceptedIffStream(es + more);
      ReadAllConcat(bottom, es, more);
    }
  }
}
