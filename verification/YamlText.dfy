/**
 The token grammar of YAML as trees: every way to present a node, with its tokens and its events.  It is the grammar
 in the comment at the head of the parser.  The parser does not read all of it; `Readable` says what it reads.
 */
module YamlText {
  import opened Common
  import opened YamlEvents
  import opened YamlParse

  /** Anchor and tag in front of a node, in either order. */
  datatype Props = Props(anchor: string, tag: Option<(string, string)>, anchorFirst: bool)

  datatype Text =
    | AliasText(name: string)
    | ScalarText(props: Props, value: string, style: ScalarStyle)
    | BareText(props: Props)
    | BlockSequenceText(props: Props, items: BlockItems)
    | IndentlessText(props: Props, items: BlockItems)
    | BlockMappingText(props: Props, pairs: BlockPairs)
    | FlowSequenceText(props: Props, flowItems: FlowItems)
    | FlowMappingText(props: Props, flowPairs: FlowPairs)

  /** Where a node may be left out. */
  datatype Place = Absent | Present(text: Text)

  /** VALUE node?, or nothing. */
  datatype Value = NoValue | HasValue(place: Place)

  /** BLOCK-ENTRY node? */
  datatype BlockItems = NoBlockItems | BlockItem(node: Place, rest: BlockItems)

  /** KEY node? (VALUE node?)?, or VALUE node? without a key. */
  datatype BlockPairs =
    | NoBlockPairs
    | BlockPair(key: Place, value: Value, rest: BlockPairs)
    | LoneValue(node: Place, rest: BlockPairs)

  /** The end of a flow collection, perhaps behind a comma, or one more entry. */
  datatype FlowItems =
    | NoFlowItems(comma: bool)
    | FlowItem(node: Text, rest: FlowItems)
    | FlowSinglePair(key: Place, value: Value, rest: FlowItems)

  datatype FlowPairs =
    | NoFlowPairs(comma: bool)
    | FlowKeyOnly(node: Text, rest: FlowPairs)
    | FlowPair(key: Place, value: Value, rest: FlowPairs)

  // ---------------------------------------------------------------- tokens

  function PropsTokens(p: Props): seq<Token> {
    var a := if p.anchor == "" then [] else [AnchorToken(p.anchor)];
    var t := if p.tag == None then [] else [TagToken(p.tag.value.0, p.tag.value.1)];
    if p.anchorFirst then a + t else t + a
  }

  function Tokens(t: Text): seq<Token> {
    match t
    case AliasText(name) => [AliasToken(name)]
    case ScalarText(p, v, s) => PropsTokens(p) + [ScalarToken(v, s)]
    case BareText(p) => PropsTokens(p)
    case BlockSequenceText(p, items) => PropsTokens(p) + [BlockSequenceStartToken] +
        (ItemsTokens(items) + [BlockEndToken])
    case IndentlessText(p, items) => PropsTokens(p) + ItemsTokens(items)
    case BlockMappingText(p, pairs) => PropsTokens(p) + [BlockMappingStartToken] +
        (PairsTokens(pairs) + [BlockEndToken])
    case FlowSequenceText(p, items) => PropsTokens(p) + [FlowSequenceStartToken] + FlowItemsTokens(items, true)
    case FlowMappingText(p, pairs) => PropsTokens(p) + [FlowMappingStartToken] + FlowPairsTokens(pairs, true)
  }

  function PlaceTokens(p: Place): seq<Token> {
    if p.Absent? then [] else Tokens(p.text)
  }

  function ItemsTokens(items: BlockItems): seq<Token> {
    if items.NoBlockItems? then [] else [BlockEntryToken] + (PlaceTokens(items.node) + ItemsTokens(items.rest))
  }

  function ValueTokens(v: Value): seq<Token> {
    if v.NoValue? then [] else [ValueToken] + PlaceTokens(v.place)
  }

  function PairsTokens(pairs: BlockPairs): seq<Token> {
    match pairs
    case NoBlockPairs => []
    case BlockPair(k, v, rest) => [KeyToken] + (PlaceTokens(k) + (ValueTokens(v) + PairsTokens(rest)))
    case LoneValue(node, rest) => [ValueToken] + (PlaceTokens(node) + PairsTokens(rest))
  }

  function Comma(first: bool): seq<Token> {
    if first then [] else [FlowEntryToken]
  }

  /** Up to and with the closing bracket; every entry but the first has a comma in front. */
  function FlowItemsTokens(items: FlowItems, first: bool): seq<Token> {
    match items
    case NoFlowItems(comma) => Comma(first || !comma) + [FlowSequenceEndToken]
    case FlowItem(t, rest) => Comma(first) + (Tokens(t) + FlowItemsTokens(rest, false))
    case FlowSinglePair(k, v, rest) =>
      Comma(first) + ([KeyToken] + (PlaceTokens(k) + (ValueTokens(v) + FlowItemsTokens(rest, false))))
  }

  function FlowPairsTokens(pairs: FlowPairs, first: bool): seq<Token> {
    match pairs
    case NoFlowPairs(comma) => Comma(first || !comma) + [FlowMappingEndToken]
    case FlowKeyOnly(t, rest) => Comma(first) + (Tokens(t) + FlowPairsTokens(rest, false))
    case FlowPair(k, v, rest) =>
      Comma(first) + ([KeyToken] + (PlaceTokens(k) + (ValueTokens(v) + FlowPairsTokens(rest, false))))
  }

  // ---------------------------------------------------------------- tags

  /** The first directive for a handle gives its prefix. */
  predicate Declares(ds: seq<TagDirective>, i: nat, handle: string) {
    i < |ds| && ds[i].handle == handle && forall j :: 0 <= j < i ==> ds[j].handle != handle
  }

  ghost predicate Gives(ds: seq<TagDirective>, handle: string, prefix: string) {
    exists i: nat :: Declares(ds, i, handle) && ds[i].prefix == prefix
  }

  /** A tag without a handle is what it says; with one, it is the prefix declared for that, and its suffix. */
  ghost predicate Expands(ds: seq<TagDirective>, tag: Option<(string, string)>, full: string) {
    match tag
    case None => full == ""
    case Some((handle, suffix)) =>
      if handle == "" then full == suffix
      else full != "" && exists prefix :: Gives(ds, handle, prefix) && full == prefix + suffix
  }

  lemma ResolveExpands(ds: seq<TagDirective>, tag: Option<(string, string)>, full: string)
    ensures Resolve(ds, tag) == Some(full) <==> Expands(ds, tag, full)
  {
    if tag.Some? {
      var handle := tag.value.0;
      if Declared(ds, handle) {
        var i := FirstDeclares(ds, handle);
        forall j: nat | Declares(ds, j, handle) ensures j == i {
        }
      }
    }
  }

  lemma {:induction false} FirstDeclares(ds: seq<TagDirective>, handle: string) returns (i: nat)
    requires Declared(ds, handle)
    ensures Declares(ds, i, handle) && PrefixOf(ds, handle) == ds[i].prefix
  {
    if ds[0].handle == handle {
      i := 0;
    } else {
      assert ds == [ds[0]] + ds[1..];
      i := FirstDeclares(ds[1..], handle);
      i := i + 1;
    }
  }

  /** The prefix that a handle stands for in a document that declares `ds`: "!" and "!!" always stand for one. */
  ghost predicate StandsFor(ds: seq<TagDirective>, handle: string, prefix: string) {
    || Gives(ds, handle, prefix)
    || ((forall d <- ds :: d.handle != handle) && handle == "!" && prefix == "!")
    || ((forall d <- ds :: d.handle != handle) && handle == "!!" && prefix == "tag:yaml.org,2002:")
  }

  lemma OneMoreGives(ds: seq<TagDirective>, d: TagDirective, handle: string, prefix: string)
    requires forall e <- ds :: e.handle != d.handle
    ensures Gives(ds + [d], handle, prefix) <==> Gives(ds, handle, prefix) || d == TagDirective(handle, prefix)
  {
    var more := ds + [d];
    assert more[..|ds|] == ds && forall j :: 0 <= j < |ds| ==> more[j] == ds[j];
    forall i: nat | i < |ds| ensures Declares(ds, i, handle) <==> Declares(more, i, handle) {
      assert more[i] == ds[i];
    }
    if d == TagDirective(handle, prefix) {
      assert Declares(more, |ds|, handle);
    }
  }

  lemma DefaultsStand(ds: seq<TagDirective>, handle: string, prefix: string)
    ensures StandsFor(ds, handle, prefix) <==> Gives(WithDefaults(ds), handle, prefix)
    ensures ds <= WithDefaults(ds)
  {
    hide Gives, Declares;
    var with := if Declared(ds, "!") then ds else ds + [TagDirective("!", "!")];
    if !Declared(ds, "!") { OneMoreGives(ds, TagDirective("!", "!"), handle, prefix); }
    if !Declared(with, "!!") { OneMoreGives(with, TagDirective("!!", "tag:yaml.org,2002:"), handle, prefix); }
    assert Declared(with, "!!") <==> Declared(ds, "!!") by {
      if d :| d in with && d.handle == "!!" { assert d in ds; }
    }
    DeclaredGives(ds, handle);
  }

  lemma DeclaredGives(ds: seq<TagDirective>, handle: string)
    ensures Declared(ds, handle) <==> exists prefix :: Gives(ds, handle, prefix)
  {
    if Declared(ds, handle) {
      var i := FirstDeclares(ds, handle);
      assert Gives(ds, handle, ds[i].prefix);
    }
  }

  /** What the tag of a node comes to in a document that declares `ds`. */
  lemma TagMeans(ds: seq<TagDirective>, tag: Option<(string, string)>, full: string)
    ensures Resolve(WithDefaults(ds), tag) == Some(full) <==>
            match tag
            case None => full == ""
            case Some((handle, suffix)) =>
              if handle == "" then full == suffix
              else full != "" && exists prefix :: StandsFor(ds, handle, prefix) && full == prefix + suffix
  {
    hide StandsFor, Gives, Resolve, WithDefaults;
    ResolveExpands(WithDefaults(ds), tag, full);
    if tag.Some? {
      forall prefix ensures StandsFor(ds, tag.value.0, prefix) <==> Gives(WithDefaults(ds), tag.value.0, prefix) {
        DefaultsStand(ds, tag.value.0, prefix);
      }
    }
  }

  // ---------------------------------------------------------------- events

  /** The full tag. */
  function Full(p: Props, ds: seq<TagDirective>): string {
    match Resolve(ds, p.tag) case Some(tag) => tag case None => ""
  }

  /** An application may find the tag itself: a plain scalar without a tag, or the tag "!". */
  predicate IsPlain(p: Props, style: ScalarStyle, ds: seq<TagDirective>) {
    if Full(p, ds) == "" then style.PlainStyle? else Full(p, ds) == "!"
  }

  /** Any other scalar without a tag: it is a string. */
  predicate IsQuoted(p: Props, style: ScalarStyle, ds: seq<TagDirective>) {
    Full(p, ds) == "" && !style.PlainStyle?
  }

  /** A node left out is an empty plain scalar. */
  const Missing: Event := ScalarEvent("", "", "", true, false, PlainStyle)

  function SequenceOf(p: Props, ds: seq<TagDirective>, style: CollectionStyle): Event {
    SequenceStartEvent(p.anchor, Full(p, ds), Full(p, ds) == "", style)
  }

  function MappingOf(p: Props, ds: seq<TagDirective>, style: CollectionStyle): Event {
    MappingStartEvent(p.anchor, Full(p, ds), Full(p, ds) == "", style)
  }

  function Events(t: Text, ds: seq<TagDirective>): seq<Event> {
    match t
    case AliasText(name) => [AliasEvent(name)]
    case ScalarText(p, v, s) => [ScalarEvent(p.anchor, Full(p, ds), v, IsPlain(p, s, ds), IsQuoted(p, s, ds), s)]
    case BareText(p) => [ScalarEvent(p.anchor, Full(p, ds), "", Full(p, ds) == "", false, PlainStyle)]
    case BlockSequenceText(p, items) => [SequenceOf(p, ds, BlockStyle)] + (ItemsEvents(items, ds) + [SequenceEndEvent])
    case IndentlessText(p, items) => [SequenceOf(p, ds, BlockStyle)] + (ItemsEvents(items, ds) + [SequenceEndEvent])
    case BlockMappingText(p, pairs) => [MappingOf(p, ds, BlockStyle)] + (PairsEvents(pairs, ds) + [MappingEndEvent])
    case FlowSequenceText(p, items) => [SequenceOf(p, ds, FlowStyle)] +
        (FlowItemsEvents(items, ds) + [SequenceEndEvent])
    case FlowMappingText(p, pairs) => [MappingOf(p, ds, FlowStyle)] + (FlowPairsEvents(pairs, ds) + [MappingEndEvent])
  }

  function PlaceEvents(p: Place, ds: seq<TagDirective>): seq<Event> {
    if p.Absent? then [Missing] else Events(p.text, ds)
  }

  function ValueEvents(v: Value, ds: seq<TagDirective>): seq<Event> {
    if v.NoValue? then [Missing] else PlaceEvents(v.place, ds)
  }

  function ItemsEvents(items: BlockItems, ds: seq<TagDirective>): seq<Event> {
    if items.NoBlockItems? then [] else PlaceEvents(items.node, ds) + ItemsEvents(items.rest, ds)
  }

  function PairsEvents(pairs: BlockPairs, ds: seq<TagDirective>): seq<Event> {
    match pairs
    case NoBlockPairs => []
    case BlockPair(k, v, rest) => PlaceEvents(k, ds) + (ValueEvents(v, ds) + PairsEvents(rest, ds))
    case LoneValue(node, rest) => [Missing] + (PlaceEvents(node, ds) + PairsEvents(rest, ds))
  }

  const SinglePairStart: Event := MappingStartEvent("", "", true, FlowStyle)

  function FlowItemsEvents(items: FlowItems, ds: seq<TagDirective>): seq<Event> {
    match items
    case NoFlowItems(_) => []
    case FlowItem(t, rest) => Events(t, ds) + FlowItemsEvents(rest, ds)
    case FlowSinglePair(k, v, rest) =>
      [SinglePairStart] + (PlaceEvents(k, ds) + (ValueEvents(v, ds) + ([MappingEndEvent] + FlowItemsEvents(rest, ds))))
  }

  function FlowPairsEvents(pairs: FlowPairs, ds: seq<TagDirective>): seq<Event> {
    match pairs
    case NoFlowPairs(_) => []
    case FlowKeyOnly(t, rest) => Events(t, ds) + ([Missing] + FlowPairsEvents(rest, ds))
    case FlowPair(k, v, rest) =>
      PlaceEvents(k, ds) + (ValueEvents(v, ds) + FlowPairsEvents(rest, ds))
  }

  // ---------------------------------------------------------------- where a text may stand

  /** Tags resolve, a bare node has a property, and block texts do not stand in flow collections. */
  predicate Fits(t: Text, ds: seq<TagDirective>, block: bool, indentless: bool) {
    (t.AliasText? || Resolve(ds, t.props.tag).Some?) &&
    match t
    case AliasText(_) => true
    case ScalarText(_, _, _) => true
    case BareText(p) => p.anchor != "" || Full(p, ds) != ""
    case BlockSequenceText(_, items) => block && ItemsFit(items, ds)
    case IndentlessText(_, items) => indentless && items.BlockItem? && ItemsFit(items, ds)
    case BlockMappingText(_, pairs) => block && PairsFit(pairs, ds)
    case FlowSequenceText(_, items) => FlowItemsFit(items, ds)
    case FlowMappingText(_, pairs) => FlowPairsFit(pairs, ds)
  }

  predicate PlaceFits(p: Place, ds: seq<TagDirective>, block: bool, indentless: bool) {
    p.Present? ==> Fits(p.text, ds, block, indentless)
  }

  predicate ValueFits(v: Value, ds: seq<TagDirective>, block: bool, indentless: bool) {
    v.HasValue? ==> PlaceFits(v.place, ds, block, indentless)
  }

  predicate ItemsFit(items: BlockItems, ds: seq<TagDirective>) {
    items.BlockItem? ==> PlaceFits(items.node, ds, true, false) && ItemsFit(items.rest, ds)
  }

  /** A VALUE behind a key without a value would be the value of that key. */
  predicate PairsFit(pairs: BlockPairs, ds: seq<TagDirective>) {
    match pairs
    case NoBlockPairs => true
    case BlockPair(k, v, rest) =>
      && PlaceFits(k, ds, true, true) && ValueFits(v, ds, true, true) && PairsFit(rest, ds)
      && (v.NoValue? ==> !rest.LoneValue?)
    case LoneValue(node, rest) => PlaceFits(node, ds, true, true) && PairsFit(rest, ds)
  }

  predicate FlowItemsFit(items: FlowItems, ds: seq<TagDirective>) {
    match items
    case NoFlowItems(_) => true
    case FlowItem(t, rest) => Fits(t, ds, false, false) && FlowItemsFit(rest, ds)
    case FlowSinglePair(k, v, rest) =>
      PlaceFits(k, ds, false, false) && ValueFits(v, ds, false, false) && FlowItemsFit(rest, ds)
  }

  predicate FlowPairsFit(pairs: FlowPairs, ds: seq<TagDirective>) {
    match pairs
    case NoFlowPairs(_) => true
    case FlowKeyOnly(t, rest) => Fits(t, ds, false, false) && FlowPairsFit(rest, ds)
    case FlowPair(k, v, rest) =>
      PlaceFits(k, ds, false, false) && ValueFits(v, ds, false, false) && FlowPairsFit(rest, ds)
  }

  // ---------------------------------------------------------------- what the parser reads

  /** In a flow sequence, a key without a node: the two shapes in which the token that gets lost is not missed. */
  predicate AbsentKeyIsRead(v: Value, rest: FlowItems) {
    v == HasValue(Absent) || (v == NoValue && rest == NoFlowItems(true))
  }

  /** The text has no VALUE without KEY in a block mapping, and no other key without a node in a flow sequence. */
  predicate Readable(t: Text) {
    match t
    case AliasText(_) => true
    case ScalarText(_, _, _) => true
    case BareText(_) => true
    case BlockSequenceText(_, items) => ItemsReadable(items)
    case IndentlessText(_, items) => ItemsReadable(items)
    case BlockMappingText(_, pairs) => PairsReadable(pairs)
    case FlowSequenceText(_, items) => FlowItemsReadable(items)
    case FlowMappingText(_, pairs) => FlowPairsReadable(pairs)
  }

  predicate PlaceReadable(p: Place) {
    p.Present? ==> Readable(p.text)
  }

  predicate ValueReadable(v: Value) {
    v.HasValue? ==> PlaceReadable(v.place)
  }

  predicate ItemsReadable(items: BlockItems) {
    items.BlockItem? ==> PlaceReadable(items.node) && ItemsReadable(items.rest)
  }

  predicate PairsReadable(pairs: BlockPairs) {
    match pairs
    case NoBlockPairs => true
    case BlockPair(k, v, rest) => PlaceReadable(k) && ValueReadable(v) && PairsReadable(rest)
    case LoneValue(_, _) => false
  }

  predicate FlowItemsReadable(items: FlowItems) {
    match items
    case NoFlowItems(_) => true
    case FlowItem(t, rest) => Readable(t) && FlowItemsReadable(rest)
    case FlowSinglePair(k, v, rest) =>
      && (if k.Absent? then AbsentKeyIsRead(v, rest) else Readable(k.text))
      && ValueReadable(v) && FlowItemsReadable(rest)
  }

  predicate FlowPairsReadable(pairs: FlowPairs) {
    match pairs
    case NoFlowPairs(_) => true
    case FlowKeyOnly(t, rest) => Readable(t) && FlowPairsReadable(rest)
    case FlowPair(k, v, rest) => PlaceReadable(k) && ValueReadable(v) && FlowPairsReadable(rest)
  }

  /** The tokens that begin a node. */
  predicate Begins(t: Token) {
    || t.AliasToken? || t.AnchorToken? || t.TagToken? || t.ScalarToken?
    || t.BlockSequenceStartToken? || t.BlockMappingStartToken? || t.FlowSequenceStartToken? || t.FlowMappingStartToken?
  }

  /** A text begins with a token that begins a node; only an indentless sequence may begin with its first entry. */
  lemma TextBegins(t: Text, ds: seq<TagDirective>, block: bool, indentless: bool)
    requires Fits(t, ds, block, indentless)
    ensures Tokens(t) != [] && (Begins(Tokens(t)[0]) || (indentless && Tokens(t)[0].BlockEntryToken?))
  {
  }
}
