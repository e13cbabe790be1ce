/**
 What the scanner does with one lexeme, on values: which tokens it makes beside the one that stands in the text, where
 they go, and what it remembers.
 */
module ScanSteps {
  import opened Common
  import opened YamlParse
  import opened ScanQueue

  /**
   What stands next in the input: whether a line break comes before it, where it starts and ends, whether a plain
   scalar ended with a line break, and whether reading it fails.
   */
  datatype Lexeme = Lexeme(newLine: bool, start: Mark, token: Token, end: Mark, blank: bool, fails: bool)

  predicate IsContent(t: Token) {
    t.AliasToken? || t.AnchorToken? || t.TagToken? || t.ScalarToken?
  }

  predicate IsBlockIndicator(t: Token) {
    t.BlockEntryToken? || t.KeyToken?
  }

  predicate IsBlockScalar(t: Token) {
    t.ScalarToken? && (t.style.LiteralStyle? || t.style.FoldedStyle?)
  }

  /** The tokens that stand in the text; the others are made by the scanner. */
  predicate IsLexical(t: Token) {
    !t.StreamStartToken? && !t.BlockSequenceStartToken? && !t.BlockMappingStartToken? && !t.BlockEndToken?
  }

  /** Only a directive or content can fail to be read, and only a plain scalar ends with a line break. */
  predicate LexemeFits(l: Lexeme) {
    && IsLexical(l.token)
    && (l.fails ==> IsContent(l.token) || l.token.VersionDirectiveToken? || l.token.TagDirectiveToken?)
    && (l.blank ==> l.token.ScalarToken? && l.token.style.PlainStyle?)
  }

  /** On an earlier line, or more than 1024 characters back. */
  predicate StaleAt(k: SimpleKey, m: Mark) {
    k.possible && (k.mark.line < m.line || k.mark.index + 1024 < m.index)
  }

  predicate MaySaveKey(t: Token) {
    (IsContent(t) && !IsBlockScalar(t)) || t.FlowSequenceStartToken? || t.FlowMappingStartToken?
  }

  /** The end of the stream is put at the beginning of a line. */
  function LineStart(m: Mark): Mark {
    if m.column != 0 then Mark(m.index, m.line + 1, 0) else m
  }

  /** The token of a lexeme, as it goes into the queue. */
  function Reading(l: Lexeme): Queued {
    Queued(l.token, if l.token.StreamEndToken? then LineStart(l.start) else l.start)
  }

  function Opening(t: Token): Token {
    if t.BlockEntryToken? then BlockSequenceStartToken else BlockMappingStartToken
  }

  // ---------------------------------------------------------------- steps

  /**
   What the scanner knows between two lexemes; `tokens` are all it has made, those handed out and those in the queue,
   and the numbers of simple keys count from the first.
   */
  datatype View = View(mark: Mark, tokens: seq<Queued>, keys: seq<SimpleKey>, allowed: bool, flowLevel: nat,
                       indents: seq<int>, indent: int)

  /** The potential key of the current level. */
  function TopKey(keys: seq<SimpleKey>): SimpleKey {
    if keys == [] then NoKey else keys[|keys| - 1]
  }

  function SetTop(keys: seq<SimpleKey>, k: SimpleKey): seq<SimpleKey> {
    if keys == [] then keys else keys[|keys| - 1 := k]
  }

  function Put(v: View, t: Queued): View {
    v.(tokens := v.tokens + [t])
  }

  function InsertToken(ts: seq<Queued>, p: nat, t: Queued): (r: seq<Queued>)
    ensures p <= |ts| ==> r == InsertAt(ts, p, t)
  {
    if p <= |ts| then ts[..p] + [t] + ts[p..] else ts + [t]
  }

  /** Levels deeper than the column are closed. */
  function Unrolled(v: View, column: int): View
    decreases |v.indents|
  {
    if v.flowLevel > 0 || v.indent <= column || v.indents == [] then v
    else
      var top := |v.indents| - 1;
      Unrolled(Put(v, Queued(BlockEndToken, v.mark)).(indent := v.indents[top], indents := v.indents[..top]), column)
  }

  /** A deeper column opens a block collection, with its token at position `p`. */
  function Rolled(v: View, column: int, p: nat, t: Queued): View {
    if v.flowLevel > 0 || v.indent >= column then v
    else v.(tokens := InsertToken(v.tokens, p, t), indents := v.indents + [v.indent], indent := column)
  }

  function Fresh(keys: seq<SimpleKey>, m: Mark): (r: seq<SimpleKey>)
    ensures |r| == |keys|
  {
    seq(|keys|, i requires 0 <= i < |keys| => if StaleAt(keys[i], m) then keys[i].(possible := false) else keys[i])
  }

  function GivenUp(v: View): View {
    v.(keys := SetTop(v.keys, TopKey(v.keys).(possible := false)))
  }

  function Saved(v: View): View {
    if !v.allowed then v
    else v.(keys := SetTop(v.keys, SimpleKey(true, v.flowLevel == 0 && v.indent == v.mark.column, |v.tokens|, v.mark)))
  }

  /** Blanks are skipped, and stale keys go. */
  function Arrived(v: View, l: Lexeme): View {
    v.(mark := l.start, allowed := v.allowed || (l.newLine && v.flowLevel == 0), keys := Fresh(v.keys, l.start))
  }

  /** Then collections deeper than the column are closed. */
  function Prepared(v: View, l: Lexeme): View {
    Unrolled(Arrived(v, l), l.start.column)
  }

  /** The end of the stream, a directive or a document indicator. */
  function Outside(v: View, t: Queued): View {
    Put(GivenUp(Unrolled(v, -1)).(allowed := false), t)
  }

  function Opened(v: View, l: Lexeme): View {
    var w := Saved(v);
    Put(w.(keys := w.keys + [NoKey], flowLevel := w.flowLevel + 1, allowed := true, mark := l.end),
        Queued(l.token, l.start))
  }

  function Closed(v: View, l: Lexeme): View {
    var w := GivenUp(v);
    var x := if w.flowLevel > 0 && w.keys != [] then
               w.(flowLevel := w.flowLevel - 1, keys := w.keys[..|w.keys| - 1])
             else w;
    Put(x.(allowed := false, mark := l.end), Queued(l.token, l.start))
  }

  /** KEY, and in the block context perhaps BLOCK-MAPPING-START, go where the potential key started. */
  function KeyInserted(v: View): View {
    var k := TopKey(v.keys);
    var w := v.(tokens := InsertToken(v.tokens, k.number, Queued(KeyToken, k.mark)));
    Rolled(w, k.mark.column, k.number, Queued(BlockMappingStartToken, k.mark))
      .(keys := SetTop(v.keys, k.(possible := false)), allowed := false)
  }

  function ValueFetched(v: View, l: Lexeme): View {
    var w := if TopKey(v.keys).possible then KeyInserted(v)
             else Rolled(v, l.start.column, |v.tokens|, Queued(BlockMappingStartToken, l.start))
                  .(allowed := v.flowLevel == 0);
    Put(w.(mark := l.end), Queued(ValueToken, l.start))
  }

  function WithoutKey(v: View, l: Lexeme, allowed: bool): View {
    Put(GivenUp(v).(allowed := allowed, mark := l.end), Queued(l.token, l.start))
  }

  /** The lexeme at the mark is fetched. */
  function Dispatched(v: View, l: Lexeme): View {
    var t := Queued(l.token, l.start);
    if IsContent(l.token) && !IsBlockScalar(l.token) then Put(Saved(v).(allowed := l.blank, mark := l.end), t)
    else if MaySaveKey(l.token) then Opened(v, l)
    else if l.token.ValueToken? then ValueFetched(v, l)
    else if l.token.StreamEndToken? then
      var w := v.(mark := LineStart(v.mark));
      Outside(w, Queued(StreamEndToken, w.mark))
    else if l.token.FlowSequenceEndToken? || l.token.FlowMappingEndToken? then Closed(v, l)
    else if l.token.FlowEntryToken? || l.token.ScalarToken? then WithoutKey(v, l, true)
    else if IsBlockIndicator(l.token) then
      WithoutKey(Rolled(v, l.start.column, |v.tokens|, Queued(Opening(l.token), l.start)), l,
                 l.token.BlockEntryToken? || v.flowLevel == 0)
    else Outside(v, t).(mark := l.end)
  }

  /** What the next lexeme makes of the scanner, if nothing fails. */
  function Fetched(v: View, l: Lexeme): View {
    Dispatched(Prepared(v, l), l)
  }

  /** The scanner has produced STREAM-START. */
  function Started(m: Mark): View {
    View(m, [Queued(StreamStartToken, m)], [NoKey], true, 0, [], -1)
  }

  function ScanAll(v: View, ls: seq<Lexeme>): View {
    if ls == [] then v else Fetched(ScanAll(v, ls[..|ls| - 1]), ls[|ls| - 1])
  }

  function Readings(ls: seq<Lexeme>): (ts: seq<Queued>)
    ensures |ts| == |ls|
  {
    if ls == [] then [] else Readings(ls[..|ls| - 1]) + [Reading(ls[|ls| - 1])]
  }

  lemma {:induction false} ReadingsConcat(a: seq<Lexeme>, b: seq<Lexeme>)
    ensures Readings(a + b) == Readings(a) + Readings(b)
  {
    if b == [] {
      assert a + b == a;
    } else {
      assert (a + b)[..|a + b| - 1] == a + b[..|b| - 1];
      ReadingsConcat(a, b[..|b| - 1]);
    }
  }

  // ---------------------------------------------------------------- which tokens are made, exactly

  /** How many of some levels are deeper than the column. */
  function CountDeeper(levels: seq<int>, column: int): nat {
    if levels == [] then 0
    else CountDeeper(levels[..|levels| - 1], column) + if levels[|levels| - 1] > column then 1 else 0
  }

  function Ends(m: Mark, n: nat): (ts: seq<Queued>)
    ensures |ts| == n
  {
    seq(n, i => Queued(BlockEndToken, m))
  }

  lemma {:induction false} NoneDeeper(levels: seq<int>, column: int)
    requires forall i :: 0 <= i < |levels| ==> levels[i] <= column
    ensures CountDeeper(levels, column) == 0
  {
    if levels != [] { NoneDeeper(levels[..|levels| - 1], column); }
  }

  lemma {:induction false} AllLevelsThere(v: View, column: int)
    requires IndentsFit(v.indents, v.indent) && column >= -1 && v.indent > column
    ensures v.indents != [] && IndentsFit(v.indents[..|v.indents| - 1], v.indents[|v.indents| - 1])
  {
    BottomIndent(v.indents, v.indent);
    PopIndent(v.indents, v.indent);
  }

  /** The top level closed. */
  function Popped(v: View): View
    requires v.indents != []
  {
    var top := |v.indents| - 1;
    Put(v, Queued(BlockEndToken, v.mark)).(indent := v.indents[top], indents := v.indents[..top])
  }

  /** In the block context one BLOCK-END is made for each level deeper than the column. */
  lemma {:induction false} UnrolledEnd(v: View, column: int)
    requires v.flowLevel == 0 && IndentsFit(v.indents, v.indent) && column >= -1
    ensures var w, n := Unrolled(v, column), CountDeeper(v.indents + [v.indent], column);
            |w.indents| == |v.indents| - n && w.tokens == v.tokens + Ends(v.mark, n)
    decreases |v.indents|
  {
    hide IndentsFit;
    var levels := v.indents + [v.indent];
    assert levels[..|levels| - 1] == v.indents;
    if v.indent <= column {
      LevelsBelow(v, column);
      assert v.tokens + Ends(v.mark, 0) == v.tokens;
    } else {
      AllLevelsThere(v, column);
      var u := Popped(v);
      UnrolledEnd(u, column);
      assert u.indents + [u.indent] == v.indents;
      OneMoreEnd(v, CountDeeper(v.indents, column));
    }
  }

  lemma OneMoreEnd(v: View, n: nat)
    ensures v.tokens + [Queued(BlockEndToken, v.mark)] + Ends(v.mark, n) == v.tokens + Ends(v.mark, n + 1)
  {
  }

  lemma LevelsBelow(v: View, column: int)
    requires IndentsFit(v.indents, v.indent) && v.indent <= column
    ensures CountDeeper(v.indents, column) == 0
  {
    NoneDeeper(v.indents, column);
  }

  /** Exactly the deeper levels are closed. */
  lemma {:induction false} UnrolledLevels(v: View, column: int)
    requires v.flowLevel == 0 && IndentsFit(v.indents, v.indent) && column >= -1
    ensures var w := Unrolled(v, column); UnrolledTo(v.indents, v.indent, column, w.indents, w.indent)
    decreases |v.indents|
  {
    if v.indent > column {
      AllLevelsThere(v, column);
      hide IndentsFit;
      UnrolledLevels(Popped(v), column);
    }
  }

  /** The tokens that a simple key puts in front of its first token. */
  function Inserted(k: SimpleKey, opens: bool): seq<Queued> {
    (if opens then [Queued(BlockMappingStartToken, k.mark)] else []) + [Queued(KeyToken, k.mark)]
  }

  /** KEY stands right in front of the token the key started with, and BLOCK-MAPPING-START right in front of KEY. */
  lemma KeyInsertedAt(v: View)
    requires TopKey(v.keys).number < |v.tokens|
    ensures var k, ts := TopKey(v.keys), v.tokens;
            KeyInserted(v).tokens ==
            ts[..k.number] + Inserted(k, v.flowLevel == 0 && v.indent < k.mark.column) + ts[k.number..]
  {
  }

  /** A view that the scanner can have: the levels increase, and every potential key points at a token. */
  predicate ViewFits(v: View) {
    && IndentsFit(v.indents, v.indent) && |v.keys| == v.flowLevel + 1
    && forall i :: 0 <= i < |v.keys| && v.keys[i].possible ==> v.keys[i].number < |v.tokens|
  }

  /** How many block collections end because the lexeme stands left of them. */
  function Ended(v: View, l: Lexeme): nat {
    if v.flowLevel > 0 then 0 else CountDeeper(v.indents + [v.indent], l.start.column)
  }

  /** The deepest level that is not deeper than the lexeme. */
  function LevelAt(v: View, l: Lexeme): int {
    var levels := v.indents + [v.indent];
    if v.flowLevel == 0 && Ended(v, l) <= |v.indents| then levels[|v.indents| - Ended(v, l)] else v.indent
  }

  /** A collection opens in the block context if the column is deeper than the level. */
  predicate Opens(v: View, l: Lexeme, column: int) {
    v.flowLevel == 0 && LevelAt(v, l) < column
  }

  /** The potential key that a VALUE turns into a key: in the same line, and at most 1024 characters back. */
  predicate KeyIsLive(v: View, l: Lexeme) {
    var k := TopKey(v.keys);
    k.possible && l.start.line <= k.mark.line && l.start.index <= k.mark.index + 1024
  }

  /** What may begin a simple key: aliases, properties, scalars that are no block scalars, and flow collections. */
  predicate StartsKey(t: Token) {
    match t
    case AliasToken(_) => true
    case AnchorToken(_) => true
    case TagToken(_, _) => true
    case ScalarToken(_, style) => !style.LiteralStyle? && !style.FoldedStyle?
    case _ => OpensFlow(t)
  }

  predicate OpensFlow(t: Token) {
    t == FlowSequenceStartToken || t == FlowMappingStartToken
  }

  /** Once blanks have been skipped and deeper collections have ended. */
  lemma PreparedExactly(v: View, l: Lexeme)
    requires ViewFits(v)
    ensures var p := Prepared(v, l);
            && ViewFits(p) && p.tokens == v.tokens + Ends(l.start, Ended(v, l)) && p.indent == LevelAt(v, l)
            && |p.indents| == |v.indents| - Ended(v, l) && p.flowLevel == v.flowLevel && p.mark == l.start
            && p.keys == Fresh(v.keys, l.start) && p.allowed == (v.allowed || (l.newLine && v.flowLevel == 0))
            && p.indents == v.indents[..|v.indents| - Ended(v, l)]
  {
    hide IndentsFit, Unrolled, Fresh;
    var w := Arrived(v, l);
    if v.flowLevel > 0 {
      UnrolledInFlow(w, l.start.column);
      assert v.tokens + Ends(l.start, 0) == v.tokens;
    } else {
      UnrolledEnd(w, l.start.column);
      UnrolledLevels(w, l.start.column);
      UnrolledEnds(w, l.start.column);
      UnrolledFits(v.indents, v.indent, l.start.column, Prepared(v, l).indents, Prepared(v, l).indent);
    }
    FreshFits(v.keys, l.start, |v.tokens|);
  }

  lemma UnrolledInFlow(v: View, column: int)
    requires v.flowLevel > 0
    ensures Unrolled(v, column) == v
  {
  }

  lemma FreshFits(keys: seq<SimpleKey>, m: Mark, n: nat)
    requires forall i :: 0 <= i < |keys| && keys[i].possible ==> keys[i].number < n
    ensures forall i :: 0 <= i < |keys| && Fresh(keys, m)[i].possible ==> Fresh(keys, m)[i].number < n
  {
  }

  lemma UnrolledFits(indents: seq<int>, indent: int, column: int, now: seq<int>, level: int)
    requires IndentsFit(indents, indent) && UnrolledTo(indents, indent, column, now, level)
    ensures IndentsFit(now, level) && level == (indents + [indent])[|now|] && now == indents[..|now|]
  {
  }

  /**
   Exactly the tokens that a lexeme makes.  Deeper block collections end.  VALUE behind a live potential key puts KEY in
   front of the token that the key began with, and BLOCK-MAPPING-START in front of that if the key stands deeper than
   the level; without such a key it makes no KEY.  '-', '?' and a VALUE without key open a collection if they stand
   deeper.  Outside of documents all collections end.
   */
  lemma FetchedTokens(v: View, l: Lexeme)
    requires ViewFits(v) && IsLexical(l.token)
    ensures var u := v.tokens + Ends(l.start, Ended(v, l));
            var k, t := TopKey(v.keys), Queued(l.token, l.start);
            Fetched(v, l).tokens ==
              if l.token.ValueToken? && KeyIsLive(v, l) then
                u[..k.number] + Inserted(k, Opens(v, l, k.mark.column)) + u[k.number..] + [t]
              else if l.token.ValueToken? || l.token.KeyToken? then
                u + (if Opens(v, l, l.start.column) then [Queued(BlockMappingStartToken, l.start)] else []) + [t]
              else if l.token.BlockEntryToken? then
                u + (if Opens(v, l, l.start.column) then [Queued(BlockSequenceStartToken, l.start)] else []) + [t]
              else if l.token.StreamEndToken? then
                var m := if l.start.column == 0 then l.start else Mark(l.start.index, l.start.line + 1, 0);
                u + OthersEnd(v, l, m) + [Queued(StreamEndToken, m)]
              else if IsOutside(l.token) then
                u + OthersEnd(v, l, l.start) + [t]
              else
                u + [t]
  {
    hide ViewFits, Prepared, Fresh, LevelAt, Dispatched, Ends, Unrolled;
    var p := Prepared(v, l);
    PreparedExactly(v, l);
    TopOfFresh(v.keys, l.start);
    DispatchedTokens(p, l);
    if l.token.StreamEndToken? {
      OthersEndExactly(v, l, p, LineStart(p.mark));
    } else if IsOutside(l.token) {
      OthersEndExactly(v, l, p, p.mark);
    }
  }

  /** The same once everything deeper has ended. */
  lemma DispatchedTokens(p: View, l: Lexeme)
    requires ViewFits(p) && IsLexical(l.token) && p.mark == l.start
    ensures var k, t := TopKey(p.keys), Queued(l.token, l.start);
            var opens := p.flowLevel == 0 && p.indent < l.start.column;
            Dispatched(p, l).tokens ==
              if l.token.ValueToken? && k.possible then
                p.tokens[..k.number] + Inserted(k, p.flowLevel == 0 && p.indent < k.mark.column)
                + p.tokens[k.number..] + [t]
              else if l.token.ValueToken? || l.token.KeyToken? then
                p.tokens + (if opens then [Queued(BlockMappingStartToken, l.start)] else []) + [t]
              else if l.token.BlockEntryToken? then
                p.tokens + (if opens then [Queued(BlockSequenceStartToken, l.start)] else []) + [t]
              else if l.token.StreamEndToken? then
                Unrolled(p.(mark := LineStart(p.mark)), -1).tokens + [Queued(StreamEndToken, LineStart(p.mark))]
              else if IsOutside(l.token) then
                Unrolled(p, -1).tokens + [t]
              else
                p.tokens + [t]
  {
    hide ViewFits, ValueFetched, Unrolled, Rolled, TopKey, Inserted, Dispatched, WithoutKey, Outside;
    DispatchedAs(p, l);
    if l.token.ValueToken? {
      ValueFetchedTokens(p, l);
    } else if IsBlockIndicator(l.token) {
      var w := Rolled(p, l.start.column, |p.tokens|, Queued(Opening(l.token), l.start));
      RolledTokens(p, l.start.column, Queued(Opening(l.token), l.start));
      PlainTokens(w, l);
    } else if l.token.StreamEndToken? {
      OutsideTokens(p.(mark := LineStart(p.mark)), Queued(StreamEndToken, LineStart(p.mark)));
    } else if IsOutside(l.token) {
      OutsideTokens(p, Queued(l.token, l.start));
    }
  }

  /** Which step a lexeme is. */
  lemma DispatchedAs(p: View, l: Lexeme)
    requires IsLexical(l.token)
    ensures var t, w := Queued(l.token, l.start), Dispatched(p, l);
            if l.token.ValueToken? then w == ValueFetched(p, l)
            else if IsBlockIndicator(l.token) then
              w == WithoutKey(Rolled(p, l.start.column, |p.tokens|, Queued(Opening(l.token), l.start)), l,
                              l.token.BlockEntryToken? || p.flowLevel == 0)
            else if l.token.StreamEndToken? then
              w == Outside(p.(mark := LineStart(p.mark)), Queued(StreamEndToken, LineStart(p.mark)))
            else if IsOutside(l.token) then w == Outside(p, t).(mark := l.end)
            else w.tokens == p.tokens + [t]
  {
    hide ValueFetched, WithoutKey, Rolled, Outside, Opened, Closed, Saved;
    PlainTokens(p, l);
  }

  /** Steps that only append their token. */
  lemma PlainTokens(p: View, l: Lexeme)
    ensures Opened(p, l).tokens == Closed(p, l).tokens == p.tokens + [Queued(l.token, l.start)]
    ensures forall allowed :: WithoutKey(p, l, allowed).tokens == p.tokens + [Queued(l.token, l.start)]
    ensures Saved(p).tokens == p.tokens
  {
  }

  lemma OutsideTokens(p: View, t: Queued)
    ensures Outside(p, t).tokens == Unrolled(p, -1).tokens + [t]
  {
  }

  lemma RolledTokens(p: View, column: int, open: Queued)
    ensures Rolled(p, column, |p.tokens|, open).tokens ==
            p.tokens + if p.flowLevel == 0 && p.indent < column then [open] else []
  {
    AppendedAtEnd(p.tokens, open);
  }

  predicate IsOutside(t: Token) {
    t.VersionDirectiveToken? || t.TagDirectiveToken? || t.DocumentStartToken? || t.DocumentEndToken?
  }

  /** The collections that are left end outside of documents. */
  function OthersEnd(v: View, l: Lexeme, m: Mark): seq<Queued> {
    if v.flowLevel > 0 || Ended(v, l) > |v.indents| then [] else Ends(m, |v.indents| - Ended(v, l))
  }

  lemma OthersEndExactly(v: View, l: Lexeme, p0: View, m: Mark)
    requires ViewFits(p0) && p0.flowLevel == v.flowLevel && |p0.indents| == |v.indents| - Ended(v, l)
    ensures Unrolled(p0.(mark := m), -1).tokens == p0.tokens + OthersEnd(v, l, m)
  {
    var p := p0.(mark := m);
    if p.flowLevel > 0 {
      UnrolledInFlow(p, -1);
    } else {
      UnrolledEnd(p, -1);
      UnrolledLevels(p, -1);
      var w := Unrolled(p, -1);
      UnrolledFits(p.indents, p.indent, -1, w.indents, w.indent);
      BottomIndent(w.indents, w.indent);
    }
  }

  lemma AppendedAtEnd(a: seq<Queued>, t: Queued)
    ensures InsertToken(a, |a|, t) == a + [t]
  {
  }

  lemma TopOfFresh(keys: seq<SimpleKey>, m: Mark)
    ensures var k, f := TopKey(keys), TopKey(Fresh(keys, m));
            && f.possible == (k.possible && !StaleAt(k, m)) && f.number == k.number && f.mark == k.mark
            && f.required == k.required
  {
  }

  /** A key may start where one is allowed, and in the block context on a new line. */
  predicate KeyAllowed(v: View, l: Lexeme) {
    v.allowed || (l.newLine && v.flowLevel == 0)
  }

  /**
   Exactly the potential keys behind a lexeme.  What may start a key is saved where a key is allowed, with the number of
   its own token; it is required if it stands at the level of its collection.  Everything else gives up the key of its
   level, except for a VALUE that has none.
   */
  lemma FetchedKeys(v: View, l: Lexeme)
    requires ViewFits(v) && IsLexical(l.token)
    ensures var f := Fresh(v.keys, l.start);
            var key := SimpleKey(true, v.flowLevel == 0 && LevelAt(v, l) == l.start.column,
                                 |v.tokens| + Ended(v, l), l.start);
            Fetched(v, l).keys ==
              if StartsKey(l.token) then
                (if KeyAllowed(v, l) then SetTop(f, key) else f) + (if OpensFlow(l.token) then [NoKey] else [])
              else if EndsFlow(l.token) && v.flowLevel > 0 then f[..|f| - 1]
              else if l.token.ValueToken? && !KeyIsLive(v, l) then f
              else SetTop(f, TopKey(f).(possible := false))
  {
    hide ViewFits, Prepared, Fresh, LevelAt, Dispatched, Ends;
    PreparedExactly(v, l);
    TopOfFresh(v.keys, l.start);
    DispatchedKeys(Prepared(v, l), l);
  }

  lemma DispatchedKeys(p: View, l: Lexeme)
    requires ViewFits(p) && IsLexical(l.token) && p.mark == l.start
    ensures var key := SimpleKey(true, p.flowLevel == 0 && p.indent == l.start.column, |p.tokens|, l.start);
            Dispatched(p, l).keys ==
              if StartsKey(l.token) then
                (if p.allowed then SetTop(p.keys, key) else p.keys) + (if OpensFlow(l.token) then [NoKey] else [])
              else if EndsFlow(l.token) && p.flowLevel > 0 then p.keys[..|p.keys| - 1]
              else if l.token.ValueToken? && !TopKey(p.keys).possible then p.keys
              else SetTop(p.keys, TopKey(p.keys).(possible := false))
  {
    hide ViewFits, Unrolled, InsertToken;
    KeysCount(p);
    UnrolledEnds(p, -1);
    UnrolledEnds(p.(mark := LineStart(p.mark)), -1);
  }

  predicate EndsFlow(t: Token) {
    t.FlowSequenceEndToken? || t.FlowMappingEndToken?
  }

  lemma KeysCount(v: View)
    requires ViewFits(v)
    ensures |v.keys| == v.flowLevel + 1
  {
  }

  /** Whether a key may follow, and how deep in flow collections the scanner is. */
  lemma FetchedContext(v: View, l: Lexeme)
    requires ViewFits(v) && IsLexical(l.token)
    ensures var w := Fetched(v, l);
            && w.flowLevel == (if OpensFlow(l.token) then v.flowLevel + 1
                               else if EndsFlow(l.token) && v.flowLevel > 0 then v.flowLevel - 1 else v.flowLevel)
            && w.mark == MarkBehind(l)
            && w.allowed ==
               (if OpensFlow(l.token) then true
                else if StartsKey(l.token) then l.blank
                else if l.token.ValueToken? then !KeyIsLive(v, l) && v.flowLevel == 0
                else if l.token.KeyToken? then v.flowLevel == 0
                else l.token.ScalarToken? || l.token.FlowEntryToken? || l.token.BlockEntryToken?)
  {
    hide ViewFits, Prepared, Fresh, LevelAt, Dispatched, Ends;
    PreparedExactly(v, l);
    TopOfFresh(v.keys, l.start);
    DispatchedContext(Prepared(v, l), l);
  }

  lemma DispatchedContext(p: View, l: Lexeme)
    requires ViewFits(p) && IsLexical(l.token) && p.mark == l.start
    ensures var w := Dispatched(p, l);
            && w.flowLevel == (if OpensFlow(l.token) then p.flowLevel + 1
                               else if EndsFlow(l.token) && p.flowLevel > 0 then p.flowLevel - 1 else p.flowLevel)
            && w.mark == MarkBehind(l)
            && w.allowed ==
               (if OpensFlow(l.token) then true
                else if StartsKey(l.token) then l.blank
                else if l.token.ValueToken? then !TopKey(p.keys).possible && p.flowLevel == 0
                else if l.token.KeyToken? then p.flowLevel == 0
                else l.token.ScalarToken? || l.token.FlowEntryToken? || l.token.BlockEntryToken?)
  {
    hide ViewFits, Unrolled, InsertToken;
    KeysCount(p);
    UnrolledEnds(p, -1);
    UnrolledEnds(p.(mark := LineStart(p.mark)), -1);
  }

  /** The levels below the one at the lexeme. */
  function LevelsBehind(v: View, l: Lexeme): seq<int> {
    if Ended(v, l) <= |v.indents| then v.indents[..|v.indents| - Ended(v, l)] else v.indents
  }

  /** Exactly the levels: where a collection opens its column is the level, and outside of documents there is none. */
  lemma FetchedLevels(v: View, l: Lexeme)
    requires ViewFits(v) && IsLexical(l.token)
    ensures var w, below, level := Fetched(v, l), LevelsBehind(v, l), LevelAt(v, l);
            var column := if l.token.ValueToken? && KeyIsLive(v, l) then TopKey(v.keys).mark.column
                          else l.start.column;
            if (l.token.ValueToken? || l.token.KeyToken? || l.token.BlockEntryToken?) && Opens(v, l, column) then
              w.indents == below + [level] && w.indent == column
            else if v.flowLevel == 0 && (l.token.StreamEndToken? || IsOutside(l.token)) then
              w.indents == [] && w.indent == -1
            else
              w.indents == below && w.indent == level
  {
    hide ViewFits, Prepared, Fresh, LevelAt, Dispatched, Ends;
    PreparedExactly(v, l);
    TopOfFresh(v.keys, l.start);
    DispatchedLevels(Prepared(v, l), l);
  }

  lemma DispatchedLevels(p: View, l: Lexeme)
    requires ViewFits(p) && IsLexical(l.token)
    ensures var w := Dispatched(p, l);
            var column := if l.token.ValueToken? && TopKey(p.keys).possible then TopKey(p.keys).mark.column
                          else l.start.column;
            if (l.token.ValueToken? || l.token.KeyToken? || l.token.BlockEntryToken?)
               && p.flowLevel == 0 && p.indent < column then
              w.indents == p.indents + [p.indent] && w.indent == column
            else if p.flowLevel == 0 && (l.token.StreamEndToken? || IsOutside(l.token)) then
              w.indents == [] && w.indent == -1
            else
              w.indents == p.indents && w.indent == p.indent
  {
    hide ViewFits, Unrolled, InsertToken, TopKey, SetTop;
    if l.token.StreamEndToken? {
      AllEnd(p, LineStart(p.mark));
    } else if IsOutside(l.token) {
      AllEnd(p, p.mark);
    }
  }

  lemma AllEnd(p0: View, m: Mark)
    requires ViewFits(p0)
    ensures var p := p0.(mark := m);
            var w := Unrolled(p, -1);
            if p.flowLevel == 0 then w.indents == [] && w.indent == -1
            else w.indents == p.indents && w.indent == p.indent
  {
    var p := p0.(mark := m);
    if p.flowLevel > 0 {
      UnrolledInFlow(p, -1);
    } else {
      UnrolledLevels(p, -1);
      var w := Unrolled(p, -1);
      UnrolledFits(p.indents, p.indent, -1, w.indents, w.indent);
      BottomIndent(w.indents, w.indent);
    }
  }

  lemma ValueFetchedTokens(p: View, l: Lexeme)
    requires ViewFits(p)
    ensures var k, t := TopKey(p.keys), Queued(ValueToken, l.start);
            ValueFetched(p, l).tokens ==
              if k.possible then
                p.tokens[..k.number] + Inserted(k, p.flowLevel == 0 && p.indent < k.mark.column)
                + p.tokens[k.number..] + [t]
              else
                p.tokens + (if p.flowLevel == 0 && p.indent < l.start.column
                            then [Queued(BlockMappingStartToken, l.start)] else []) + [t]
  {
    hide KeyInserted, InsertToken;
    if TopKey(p.keys).possible {
      KeyInsertedAt(p);
    } else {
      AppendedAtEnd(p.tokens, Queued(BlockMappingStartToken, l.start));
    }
  }

  // ---------------------------------------------------------------- how the tokens grow

  lemma {:induction false} UnrolledEnds(v: View, column: int)
    ensures var w := Unrolled(v, column);
            && v.tokens <= w.tokens && (forall i :: |v.tokens| <= i < |w.tokens| ==> w.tokens[i].token == BlockEndToken)
            && w == v.(tokens := w.tokens, indents := w.indents, indent := w.indent)
    decreases |v.indents|
  {
    if !(v.flowLevel > 0 || v.indent <= column || v.indents == []) {
      var top := |v.indents| - 1;
      var w := Put(v, Queued(BlockEndToken, v.mark)).(indent := v.indents[top], indents := v.indents[..top]);
      UnrolledEnds(w, column);
    }
  }

  lemma MadeBehind(ts: seq<Queued>, made: seq<Queued>, t: Queued)
    requires ts <= made && AllMade(made[|ts|..])
    ensures Grown(ts, made + [t], t)
  {
    assert ts + made[|ts|..] == made;
    AppendGrows(ts, made[|ts|..], t);
  }

  lemma NothingMade(ts: seq<Queued>, t: Queued)
    ensures Grown(ts, ts + [t], t)
  {
    MadeBehind(ts, ts, t);
  }

  lemma OutsideGrows(v: View, t: Queued)
    ensures Grown(v.tokens, Outside(v, t).tokens, t)
  {
    hide Grown, Unrolled;
    UnrolledEnds(v, -1);
    MadeBehind(v.tokens, Unrolled(v, -1).tokens, t);
  }

  lemma RolledGrows(v: View, column: int, open: Queued, t: Queued)
    requires OpensBlock(open.token)
    ensures Grown(v.tokens, Rolled(v, column, |v.tokens|, open).tokens + [t], t)
  {
    hide Grown;
    var r := Rolled(v, column, |v.tokens|, open).tokens;
    assert r == v.tokens || r == v.tokens + [open];
    MadeBehind(v.tokens, r, t);
  }

  lemma KeyGrows(v: View, t: Queued)
    ensures Grown(v.tokens, KeyInserted(v).tokens + [t], t)
  {
    hide Grown;
    var k, ts := TopKey(v.keys), v.tokens;
    var p := if k.number <= |ts| then k.number else |ts|;
    var key, open := Queued(KeyToken, k.mark), Queued(BlockMappingStartToken, k.mark);
    var r := KeyInserted(v).tokens;
    var one := InsertToken(ts, k.number, key);
    assert one == ts[..p] + [key] + ts[p..];
    if r == one {
      InsertGrows(ts, p, [key], [], t);
      assert r + [t] == ts[..p] + [key] + ts[p..] + [] + [t];
    } else if k.number <= |ts| {
      assert r == ts[..p] + [open, key] + ts[p..];
      InsertGrows(ts, p, [open, key], [], t);
      assert r + [t] == ts[..p] + [open, key] + ts[p..] + [] + [t];
    } else {
      AppendGrows(ts, r[|ts|..], t);
      assert ts + r[|ts|..] == r;
    }
  }

  /** The lexeme's token is appended, perhaps behind others that the scanner makes. */
  lemma DispatchedGrows(v: View, l: Lexeme)
    requires v.mark == l.start
    ensures Grown(v.tokens, Dispatched(v, l).tokens, Reading(l))
  {
    hide Grown, Unrolled, Rolled, KeyInserted;
    var t := Queued(l.token, l.start);
    NothingMade(v.tokens, t);
    OutsideGrows(v, t);
    OutsideGrows(v.(mark := LineStart(v.mark)), Queued(StreamEndToken, LineStart(v.mark)));
    RolledGrows(v, l.start.column, Queued(Opening(l.token), l.start), t);
    RolledGrows(v, l.start.column, Queued(BlockMappingStartToken, l.start), t);
    KeyGrows(v, t);
  }

  lemma FetchedGrows(v: View, l: Lexeme)
    ensures Grown(v.tokens, Fetched(v, l).tokens, Reading(l))
  {
    hide Grown, Unrolled, Dispatched;
    var w := Arrived(v, l);
    UnrolledEnds(w, l.start.column);
    var p := Prepared(v, l);
    DispatchedGrows(p, l);
    assert p.tokens == v.tokens + p.tokens[|v.tokens|..];
    GrownAfter(v.tokens, p.tokens[|v.tokens|..], Dispatched(p, l).tokens, Reading(l));
  }

  // ---------------------------------------------------------------- runs

  predicate NotBefore(m: Mark, n: Mark) {
    m.line <= n.line && m.index <= n.index
  }

  /** Where the scanner is when it has fetched the lexeme. */
  function MarkBehind(l: Lexeme): Mark {
    if l.token.StreamEndToken? then LineStart(l.start) else l.end
  }

  /** No lexeme begins before the end of the one in front of it. */
  predicate InOrder(m: Mark, ls: seq<Lexeme>) {
    forall i :: 0 <= i < |ls| ==> NotBefore(MarkAt(m, ls, i), ls[i].start)
  }

  /** Where a scanner that starts at `m` is after `k` lexemes. */
  function MarkAt(m: Mark, ls: seq<Lexeme>, k: nat): Mark
    requires k <= |ls|
  {
    if k == 0 then m else MarkBehind(ls[k - 1])
  }

  lemma ScanAllMark(m: Mark, ls: seq<Lexeme>)
    ensures ScanAll(Started(m), ls).mark == MarkAt(m, ls, |ls|)
  {
    hide Fetched;
    if ls != [] { FetchedMark(ScanAll(Started(m), ls[..|ls| - 1]), ls[|ls| - 1]); }
  }

  lemma FetchedMark(v: View, l: Lexeme)
    ensures Fetched(v, l).mark == MarkBehind(l)
  {
    UnrolledEnds(Arrived(v, l), l.start.column);
    var p := Prepared(v, l);
    UnrolledEnds(p.(mark := LineStart(p.mark)), -1);
    hide Unrolled, Fresh;
  }

  /** Some keys that are stale at the mark may have been given up already. */
  predicate GivenUpSince(keys: seq<SimpleKey>, now: seq<SimpleKey>, m: Mark) {
    && |now| == |keys|
    && forall i :: 0 <= i < |keys| ==>
         now[i] == keys[i] || (StaleAt(keys[i], m) && now[i] == keys[i].(possible := false))
  }

  lemma FreshAgain(keys: seq<SimpleKey>, now: seq<SimpleKey>, m: Mark, n: Mark)
    requires GivenUpSince(keys, now, m) && NotBefore(m, n)
    ensures Fresh(now, n) == Fresh(keys, n) && GivenUpSince(keys, Fresh(now, m), m)
  {
  }

  /** Giving up stale keys early makes no difference to the next lexeme. */
  lemma FetchedAlike(v: View, now: seq<SimpleKey>, l: Lexeme)
    requires GivenUpSince(v.keys, now, v.mark) && NotBefore(v.mark, l.start)
    ensures Fetched(v.(keys := now), l) == Fetched(v, l)
  {
    hide Fresh, Dispatched, Unrolled;
    FreshAgain(v.keys, now, v.mark, l.start);
  }

  lemma ScanAllStep(m: Mark, ls: seq<Lexeme>, l: Lexeme)
    ensures ScanAll(Started(m), ls + [l]) == Fetched(ScanAll(Started(m), ls), l)
    ensures Readings(ls + [l]) == Readings(ls) + [Reading(l)]
    ensures InOrder(m, ls + [l]) ==> InOrder(m, ls) && NotBefore(ScanAll(Started(m), ls).mark, l.start)
  {
    hide Fetched, NotBefore, Reading, Started;
    var all := ls + [l];
    assert all[..|all| - 1] == ls;
    ScanAllMark(m, ls);
    if InOrder(m, all) {
      forall i | 0 <= i < |ls| ensures NotBefore(MarkAt(m, ls, i), ls[i].start) {
        assert NotBefore(MarkAt(m, all, i), all[i].start);
      }
      assert NotBefore(MarkAt(m, all, |ls|), all[|ls|].start);
    }
  }
}
