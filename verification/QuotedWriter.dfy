/**
 The writer of double-quoted scalars in place.  It escapes what is not printable and may fold long lines at single
 spaces; its output is the text of pieces that stand for the value, so scanning it gives the value back.
 */
module QuotedWriter {
  import opened Common
  import opened Utf8
  import opened QuotedScalar

  /** The text written so far, what is left of the value, the pieces, and whether a backslash waits for a space. */
  datatype Progress = Progress(text: seq<Byte>, rest: seq<CodePoint>, pieces: seq<Piece>, pending: bool)

  /** What has been written for the part of the value in front of `i`. */
  ghost predicate Written(g: Progress, value: seq<Byte>, i: nat, spaces: bool) {
    var ps, rest := g.pieces, g.rest;
    && g.text == RenderAll(ps) + (if g.pending then [BACKSLASH] else [])
    && Tidy(ps) && DenoteAll(ps) + EncodeAll(rest) == value
    && i == |DenoteAll(ps)|
    && (ps != [] && !spaces ==> !IsSpacePiece(ps[|ps| - 1]) && !ps[|ps| - 1].Fold?)
    && (ps != [] && ps[|ps| - 1].Fold? ==> rest != [] && g.pending == (rest[0] == 0x20))
    && (g.pending ==> ps != [] && ps[|ps| - 1].Fold? && !IsBom(value, 0))
  }

  /** Characters that cannot stand for themselves; behind a byte order mark at the start, none can. */
  predicate Special(c: CodePoint, unicode: bool, bom: bool) {
    !Printable(c) || (!unicode && c > 0x7F) || bom || Break(c) || c == 0x22 || c == 0x5C
  }

  /** The settings that decide how a value is laid out; `bom` tells that it begins with a byte order mark. */
  datatype Options =
    Options(unicode: bool, bestWidth: int, margin: nat, lineBreak: LineBreak, allowBreaks: bool, bom: bool)

  /** A single space in a line that is too long, not at either end of the value, is where the line is folded. */
  predicate Folds(o: Options, cs: seq<CodePoint>, col: nat, spaces: bool, first: bool) {
    o.allowBreaks && !spaces && col > o.bestWidth && !first && |cs| > 1
  }

  /** The piece for the next character, in column `col`; `pending` tells that a backslash stands in front of it. */
  function NextPiece(o: Options, cs: seq<CodePoint>, col: nat, spaces: bool, first: bool, pending: bool): Piece
    requires cs != []
  {
    if Special(cs[0], o.unicode, o.bom) then Escaped(cs[0])
    else if cs[0] != 0x20 then Raw(cs[0])
    else if Folds(o, cs, col, spaces, first) then Fold(o.lineBreak, o.margin)
    else if pending then EscapedSpace
    else Raw(0x20)
  }

  predicate NextPending(cs: seq<CodePoint>, p: Piece) {
    p.Fold? && |cs| > 1 && cs[1] == 0x20
  }

  function NextColumn(o: Options, cs: seq<CodePoint>, col: nat, p: Piece): nat {
    match p
    case Fold(_, _) => o.margin + if NextPending(cs, p) then 1 else 0
    case Escaped(c) => col + |RenderEscape(c)|
    case _ => col + 1
  }

  predicate NextSpaces(cs: seq<CodePoint>, p: Piece)
    requires cs != []
  {
    cs[0] == 0x20 && !p.Escaped?
  }

  /** The pieces that a value is written as. */
  function Layout(o: Options, cs: seq<CodePoint>, col: nat, spaces: bool, first: bool, pending: bool): seq<Piece> {
    if cs == [] then []
    else
      var p := NextPiece(o, cs, col, spaces, first, pending);
      [p] + Layout(o, cs[1..], NextColumn(o, cs, col, p), NextSpaces(cs, p), false, NextPending(cs, p))
  }

  /** Escaped is what has to be, and lines are folded only if that is allowed, with the margin behind the break. */
  predicate Chosen(p: Piece, o: Options) {
    match p
    case Raw(c) => !Special(c, o.unicode, o.bom)
    case Escaped(c) => Special(c, o.unicode, o.bom)
    case EscapedSpace => o.allowBreaks
    case Fold(k, n) => o.allowBreaks && n == o.margin && k == o.lineBreak
  }

  lemma {:induction false} LayoutIsChosen(o: Options, cs: seq<CodePoint>, col: nat, spaces: bool, first: bool,
                                          pending: bool)
    requires pending ==> o.allowBreaks
    ensures forall k :: 0 <= k < |Layout(o, cs, col, spaces, first, pending)| ==>
              Chosen(Layout(o, cs, col, spaces, first, pending)[k], o)
    decreases |cs|
  {
    hide Special;
    if cs != [] {
      var p := NextPiece(o, cs, col, spaces, first, pending);
      LayoutIsChosen(o, cs[1..], NextColumn(o, cs, col, p), NextSpaces(cs, p), false, NextPending(cs, p));
    }
  }

  /** The column behind some pieces: what has been written since the last line break. */
  function ColumnBehind(margin: nat, col: nat, ps: seq<Piece>): nat
    decreases |ps|
  {
    if ps == [] then col
    else ColumnBehind(margin, if ps[0].Fold? then margin else col + Wide(ps[0]), ps[1..])
  }

  /** A raw character takes one column, whatever its bytes. */
  function Wide(p: Piece): nat {
    if p.Raw? then 1 else |Render(p)|
  }

  /**
   Where lines are folded, exactly: at a single space with something on both sides, once the line has come beyond the
   best width.
   */
  lemma FoldsExactly(o: Options, cs: seq<CodePoint>, col: nat, k: nat)
    requires k < |cs|
    ensures var ps := Layout(o, cs, col, false, true, false);
            && |ps| == |cs|
            && (ps[k].Fold? <==>
                  && o.allowBreaks && !o.bom && cs[k] == 0x20 && 0 < k < |cs| - 1 && cs[k - 1] != 0x20
                  && ColumnBehind(o.margin, col, ps[..k]) > o.bestWidth)
  {
    FoldsFrom(o, cs, col, false, true, false, k);
  }

  /**
   What is escaped, exactly: what YAML does not print, line breaks, the quote and the backslash, and what is no ASCII
   unless that is allowed; behind a byte order mark, everything.
   */
  lemma EscapesExactly(o: Options, cs: seq<CodePoint>, col: nat, k: nat)
    requires k < |cs|
    ensures var ps := Layout(o, cs, col, false, true, false);
            var c := cs[k];
            && |ps| == |cs| && (ps[k].Escaped? ==> ps[k].c == c) && (ps[k].Raw? ==> ps[k].c == c)
            && (ps[k].Escaped? <==>
                  || o.bom || c < 0x20 || c == 0x22 || c == 0x5C || 0x7F <= c < 0xA0 || c == 0x2028 || c == 0x2029
                  || c == 0xFEFF || c > 0xFFFD || (c > 0x7F && !o.unicode))
  {
    EscapesFrom(o, cs, col, false, true, false, k);
  }

  lemma {:induction false} EscapesFrom(o: Options, cs: seq<CodePoint>, col: nat, spaces: bool, first: bool,
                                       pending: bool, k: nat)
    requires k < |cs|
    ensures var ps := Layout(o, cs, col, spaces, first, pending);
            && |ps| == |cs| && (ps[k].Escaped? ==> ps[k].c == cs[k]) && (ps[k].Raw? ==> ps[k].c == cs[k])
            && (ps[k].Escaped? <==> Special(cs[k], o.unicode, o.bom))
    decreases |cs|
  {
    hide Special;
    LayoutLength(o, cs, col, spaces, first, pending);
    var p := NextPiece(o, cs, col, spaces, first, pending);
    if k > 0 {
      EscapesFrom(o, cs[1..], NextColumn(o, cs, col, p), NextSpaces(cs, p), false, NextPending(cs, p), k - 1);
    }
  }

  lemma {:induction false} FoldsFrom(o: Options, cs: seq<CodePoint>, col: nat, spaces: bool, first: bool,
                                     pending: bool, k: nat)
    requires k < |cs| && (pending ==> spaces && cs[0] == 0x20 && !o.bom)
    ensures var ps := Layout(o, cs, col + (if pending then 1 else 0), spaces, first, pending);
            && |ps| == |cs|
            && (ps[k].Fold? <==>
                  && o.allowBreaks && !o.bom && cs[k] == 0x20 && k < |cs| - 1
                  && (if k > 0 then cs[k - 1] != 0x20 else !first && !spaces)
                  && ColumnBehind(o.margin, col, ps[..k]) > o.bestWidth)
    decreases |cs|
  {
    hide Special, Render, NextPiece, Layout, NextColumn, Wide, NextSpaces;
    var c := col + if pending then 1 else 0;
    var ps := Layout(o, cs, c, spaces, first, pending);
    var p := NextPiece(o, cs, c, spaces, first, pending);
    LayoutFirst(o, cs, c, spaces, first, pending);
    LayoutLength(o, cs, c, spaces, first, pending);
    FoldsFirst(o, cs, col, spaces, first, pending);
    if k > 0 {
      var next := if p.Fold? then o.margin else col + Wide(p);
      FoldsFrom(o, cs[1..], next, NextSpaces(cs, p), false, NextPending(cs, p), k - 1);
      PrefixBehind(ps, k);
    }
  }

  lemma LayoutFirst(o: Options, cs: seq<CodePoint>, col: nat, spaces: bool, first: bool, pending: bool)
    requires cs != []
    ensures var ps, p := Layout(o, cs, col, spaces, first, pending), NextPiece(o, cs, col, spaces, first, pending);
            && ps != [] && ps[0] == p
            && ps[1..] == Layout(o, cs[1..], NextColumn(o, cs, col, p), NextSpaces(cs, p), false, NextPending(cs, p))
  {
    hide NextPiece, NextColumn, NextSpaces, NextPending;
  }

  /** The first piece. */
  lemma FoldsFirst(o: Options, cs: seq<CodePoint>, col: nat, spaces: bool, first: bool, pending: bool)
    requires cs != [] && (pending ==> spaces && cs[0] == 0x20 && !o.bom)
    ensures var c := col + if pending then 1 else 0;
            var p := NextPiece(o, cs, c, spaces, first, pending);
            && (p.Fold? <==> o.allowBreaks && !o.bom && cs[0] == 0x20 && |cs| > 1 && !first && !spaces
                             && col > o.bestWidth)
            && NextColumn(o, cs, c, p) ==
               (if p.Fold? then o.margin else col + Wide(p)) + (if NextPending(cs, p) then 1 else 0)
            && (NextSpaces(cs, p) <==> cs[0] == 0x20 && !o.bom)
            && (NextPending(cs, p) ==> NextSpaces(cs, p) && cs[1] == 0x20 && !o.bom)
  {
    hide Special, Render;
    SpaceIsPlain(o);
    PieceWidth(NextPiece(o, cs, col + (if pending then 1 else 0), spaces, first, pending));
  }

  lemma PrefixBehind<T>(s: seq<T>, k: nat)
    requires 0 < k <= |s|
    ensures s[..k] != [] && s[..k][0] == s[0] && s[..k][1..] == s[1..][..k - 1]
  {
  }

  lemma SpaceIsPlain(o: Options)
    ensures Special(0x20, o.unicode, o.bom) <==> o.bom
  {
  }

  lemma PieceWidth(p: Piece)
    ensures p.EscapedSpace? ==> Wide(p) == 2
    ensures p.Escaped? ==> Wide(p) == |RenderEscape(p.c)|
  {
  }

  lemma {:induction false} LayoutLength(o: Options, cs: seq<CodePoint>, col: nat, spaces: bool, first: bool,
                                        pending: bool)
    ensures |Layout(o, cs, col, spaces, first, pending)| == |cs|
    decreases |cs|
  {
    hide Special, NextPiece;
    if cs != [] {
      var p := NextPiece(o, cs, col, spaces, first, pending);
      LayoutLength(o, cs[1..], NextColumn(o, cs, col, p), NextSpaces(cs, p), false, NextPending(cs, p));
    }
  }

  /** One turn of the writer is one piece of the layout. */
  predicate Turns(o: Options, g: Progress, col: nat, spaces: bool, first: bool, h: Progress, col': nat, spaces': bool) {
    && g.rest != []
    && var p := NextPiece(o, g.rest, col, spaces, first, g.pending);
    && h.pieces == g.pieces + [p] && h.rest == g.rest[1..] && h.pending == NextPending(g.rest, p)
    && col' == NextColumn(o, g.rest, col, p) && spaces' == NextSpaces(g.rest, p)
  }

  lemma TurnLaysOut(o: Options, g: Progress, col: nat, spaces: bool, first: bool, h: Progress, col': nat, spaces': bool)
    requires Turns(o, g, col, spaces, first, h, col', spaces')
    ensures h.pieces + Layout(o, h.rest, col', spaces', false, h.pending) ==
            g.pieces + Layout(o, g.rest, col, spaces, first, g.pending)
  {
    hide Special, NextPiece;
  }

  lemma {:induction false} AppendPiece(ps: seq<Piece>, p: Piece)
    ensures RenderAll(ps + [p]) == RenderAll(ps) + Render(p)
    ensures DenoteAll(ps + [p]) == DenoteAll(ps) + Denote(p)
  {
    hide Render, Denote;
    if ps == [] {
      assert ps + [p] == [p];
      assert Render(p) + [] == Render(p) && Denote(p) + [] == Denote(p);
    } else {
      assert (ps + [p])[1..] == ps[1..] + [p];
      AppendPiece(ps[1..], p);
      assert Render(ps[0]) + (RenderAll(ps[1..]) + Render(p)) == RenderAll(ps) + Render(p);
      assert Denote(ps[0]) + (DenoteAll(ps[1..]) + Denote(p)) == DenoteAll(ps) + Denote(p);
    }
  }

  lemma TidyAppend(ps: seq<Piece>, p: Piece)
    requires Tidy(ps) && PieceFits(p) && (ps != [] ==> Adjacent(ps[|ps| - 1], p))
    ensures Tidy(ps + [p])
  {
  }

  /** The next code point of the value stands at `i`. */
  lemma NextHere(g: Progress, value: seq<Byte>, i: nat, spaces: bool)
    requires Written(g, value, i, spaces)
    ensures i <= |value| && (i < |value| <==> g.rest != [])
    ensures g.rest != [] ==> Here(value, i, Encode(g.rest[0])) && i + |Encode(g.rest[0])| <= |value|
    ensures |g.rest| > 1 ==> Here(value, i + |Encode(g.rest[0])|, Encode(g.rest[1]))
    ensures g.rest != [] ==> (|g.rest| > 1 <==> i + |Encode(g.rest[0])| < |value|)
    ensures g.pending ==> g.rest != [] && g.rest[0] == 0x20 && !IsBom(value, 0) && spaces
  {
    hide Encode, Tidy;
    var rest := g.rest;
    if rest != [] {
      assert Here(value, i, EncodeAll(rest));
      HereConcat(value, i, Encode(rest[0]), EncodeAll(rest[1..]));
      if |rest| > 1 { HereConcat(value, i + |Encode(rest[0])|, Encode(rest[1]), EncodeAll(rest[1..][1..])); }
    }
  }

  /** One more piece that stands for the next code point; a pending backslash is the beginning of its text. */
  lemma WriteOne(g: Progress, value: seq<Byte>, i: nat, spaces: bool, p: Piece, more: seq<Byte>)
    requires Written(g, value, i, spaces) && g.rest != []
    requires PieceFits(p) && !p.Fold? && Denote(p) == Encode(g.rest[0]) && g.pending == p.EscapedSpace?
    requires IsSpacePiece(p) <==> g.rest[0] == 0x20 && p.Raw?
    requires Render(p) == (if g.pending then [BACKSLASH] else []) + more
    ensures Written(Progress(g.text + more, g.rest[1..], g.pieces + [p], false),
                    value, i + |Encode(g.rest[0])|, IsSpacePiece(p) || p.EscapedSpace?)
  {
    hide Encode, EncodeAll, RenderAll, DenoteAll, Tidy, Render;
    var ps := g.pieces;
    TidyAppend(ps, p);
    AppendPiece(ps, p);
    assert g.text + more == RenderAll(ps) + Render(p);
    ValueMoves(ps, p, g.rest, value);
  }

  /** The next code point goes from the rest of the value to the pieces. */
  lemma ValueMoves(ps: seq<Piece>, p: Piece, rest: seq<CodePoint>, value: seq<Byte>)
    requires rest != [] && Denote(p) == Encode(rest[0]) && DenoteAll(ps) + EncodeAll(rest) == value
    ensures DenoteAll(ps + [p]) + EncodeAll(rest[1..]) == value
    ensures |DenoteAll(ps + [p])| == |DenoteAll(ps)| + |Encode(rest[0])|
  {
    hide Encode, EncodeAll, RenderAll, DenoteAll, Denote;
    AppendPiece(ps, p);
    EncodeFirst(rest);
    Associates(DenoteAll(ps), Encode(rest[0]), EncodeAll(rest[1..]));
  }

  lemma EncodeFirst(cs: seq<CodePoint>)
    requires cs != []
    ensures EncodeAll(cs) == Encode(cs[0]) + EncodeAll(cs[1..])
  {
  }

  lemma Associates<T>(a: seq<T>, b: seq<T>, c: seq<T>)
    ensures a + (b + c) == a + b + c
  {
  }

  /** A fold in place of a single space; the next character is a space exactly if a backslash follows. */
  lemma WriteFold(g: Progress, value: seq<Byte>, i: nat, k: LineBreak, n: nat, pending: bool)
    requires Written(g, value, i, false) && !g.pending && |g.rest| > 1 && g.rest[0] == 0x20
    requires pending == (g.rest[1] == 0x20) && !IsBom(value, 0)
    ensures Written(Progress(g.text + Render(Fold(k, n)) + (if pending then [BACKSLASH] else []),
                             g.rest[1..], g.pieces + [Fold(k, n)], pending), value, i + 1, true)
  {
    hide Encode, EncodeAll, RenderAll, DenoteAll, Tidy;
    var p, ps := Fold(k, n), g.pieces;
    TidyAppend(ps, p);
    AppendPiece(ps, p);
    SpaceEncodes();
    ValueMoves(ps, p, g.rest, value);
  }

  lemma SpaceEncodes()
    ensures Encode(0x20) == [SPACE]
  {
  }

  /** The number with the last `n` hexadecimal digits cut off. */
  function Shifted(v: nat, n: nat): nat {
    if n == 0 then v else Shifted(v, n - 1) / 16
  }

  /** The payload of a first byte. */
  function LeadBits(x: Byte): int {
    if x < 0x80 then x else if x < 0xE0 then x % 0x20 else if x < 0xF0 then x % 0x10 else x % 0x08
  }

  /** The bits of the first `k` bytes of the character at `i`. */
  function Accumulated(b: seq<Byte>, i: nat, k: nat): int
    requires k >= 1
  {
    if k == 1 then LeadBits(At(b, i)) else Accumulated(b, i, k - 1) * 64 + At(b, i + k - 1) % 64
  }

  lemma LowBits(q: int)
    requires 0 <= q < 64
    ensures (0x80 + q) % 64 == q
    ensures q < 0x20 ==> LeadBits(0xC0 + q) == q
    ensures q < 0x10 ==> LeadBits(0xE0 + q) == q
    ensures q < 0x08 ==> LeadBits(0xF0 + q) == q
  {
  }

  lemma DecodesTo(b: seq<Byte>, i: nat, c: CodePoint)
    requires Here(b, i, Encode(c))
    ensures Width(At(b, i)) == |Encode(c)| && Accumulated(b, i, |Encode(c)|) == c
  {
    hide LeadBits, At, Here, Width;
    HereBytes(b, i, c);
    WidthOfEncoding(c);
    if c <= 0x7F {
      LeadOfAscii(c);
    } else if c <= 0x7FF {
      DecodeTwo(b, i, c);
    } else if c <= 0xFFFF {
      DecodeThree(b, i, c);
    } else {
      DecodeFour(b, i, c);
    }
  }

  lemma LeadOfAscii(c: Byte)
    ensures c < 0x80 ==> LeadBits(c) == c
  {
  }

  lemma DecodeTwo(b: seq<Byte>, i: nat, c: CodePoint)
    requires 0x7F < c <= 0x7FF && At(b, i) == 0xC0 + c / 64 && At(b, i + 1) == 0x80 + c % 64
    ensures Accumulated(b, i, 2) == c
  {
    hide LeadBits, At;
    LowBits(c / 64);
    LowBits(c % 64);
    assert Accumulated(b, i, 1) == c / 64;
  }

  lemma DecodeThree(b: seq<Byte>, i: nat, c: CodePoint)
    requires 0x7FF < c <= 0xFFFF && At(b, i) == 0xE0 + c / 4096
    requires At(b, i + 1) == 0x80 + c / 64 % 64 && At(b, i + 2) == 0x80 + c % 64
    ensures Accumulated(b, i, 3) == c
  {
    hide LeadBits, At;
    LowBits(c / 4096);
    LowBits(c / 64 % 64);
    LowBits(c % 64);
    assert Accumulated(b, i, 1) == c / 4096;
    assert Accumulated(b, i, 2) == c / 64;
  }

  lemma DecodeFour(b: seq<Byte>, i: nat, c: CodePoint)
    requires 0xFFFF < c && At(b, i) == 0xF0 + c / 262144 && At(b, i + 1) == 0x80 + c / 4096 % 64
    requires At(b, i + 2) == 0x80 + c / 64 % 64 && At(b, i + 3) == 0x80 + c % 64
    ensures Accumulated(b, i, 4) == c
  {
    hide LeadBits, At;
    LowBits(c / 262144);
    LowBits(c / 4096 % 64);
    LowBits(c / 64 % 64);
    LowBits(c % 64);
    assert Accumulated(b, i, 1) == c / 262144;
    assert Accumulated(b, i, 2) == c / 4096;
    assert Accumulated(b, i, 3) == c / 64;
  }

  class Writer {
    const unicode: bool
    const bestWidth: int
    const indent: int
    const lineBreak: LineBreak

    var out: seq<Byte>
    var column: nat
    var whitespace: bool
    var indention: bool

    constructor (unicode: bool, bestWidth: int, indent: int, lineBreak: LineBreak)
      ensures this.unicode == unicode && this.bestWidth == bestWidth && this.indent == indent
      ensures this.lineBreak == lineBreak && out == [] && column == 0 && whitespace && indention
    {
      this.unicode, this.bestWidth, this.indent, this.lineBreak := unicode, bestWidth, indent, lineBreak;
      out, column, whitespace, indention := [], 0, true, true;
    }

    method Put(x: Byte)
      modifies this`out, this`column
      ensures out == old(out) + [x] && column == old(column) + 1
    {
      out := out + [x];
      column := column + 1;
    }

    method PutBreak()
      modifies this`out, this`column
      ensures out == old(out) + BreakBytes(lineBreak) && column == 0
    {
      match lineBreak {
        case CrBreak => out := out + [0x0D];
        case LnBreak => out := out + [0x0A];
        case CrLnBreak => out := out + [0x0D, 0x0A];
      }
      column := 0;
    }

    /** Copies the character at `i`. */
    method WriteChar(s: seq<Byte>, i: nat, ghost c: CodePoint) returns (j: nat)
      requires i < |s| && Here(s, i, Encode(c))
      modifies this`out, this`column
      ensures out == old(out) + Encode(c) && column == old(column) + 1 && j == i + |Encode(c)|
    {
      HereBytes(s, i, c);
      WidthOfEncoding(c);
      var w := Width(s[i]);
      assert s[i..i + w] == Encode(c);
      out := out + s[i..i + w];
      column := column + 1;
      j := i + w;
    }

    /** The columns that a new line is indented by. */
    function Margin(): nat {
      if indent < 0 then 0 else indent
    }

    /** A new line is begun unless nothing but indentation, and no more than wanted, has been written in this one. */
    predicate BreaksLine()
      reads this`indention, this`column, this`whitespace
    {
      !indention || column > Margin() || (column == Margin() && !whitespace)
    }

    method WriteIndent()
      modifies this
      ensures whitespace && indention
      ensures var from := if old(BreaksLine()) then 0 else old(column);
              && column == Margin()
              && out == old(out) + (if old(BreaksLine()) then BreakBytes(lineBreak) else []) + Spaces(Margin() - from)
    {
      var margin := Margin();
      ghost var broken := BreaksLine();
      if !indention || column > margin || (column == margin && !whitespace) {
        PutBreak();
      }
      ghost var from, start := column, out;
      assert start == old(out) + if broken then BreakBytes(lineBreak) else [];
      while column < margin
        invariant from <= column <= margin && out == start + Spaces(column - from)
      {
        assert Spaces(column - from) + [SPACE] == Spaces(column + 1 - from);
        Put(SPACE);
      }
      whitespace := true;
      indention := true;
    }

    method WriteIndicator(x: Byte, needWhitespace: bool, isWhitespace: bool, isIndention: bool)
      modifies this
      ensures out == old(out) + (if needWhitespace && !old(whitespace) then [SPACE] else []) + [x]
      ensures column == old(column) + (if needWhitespace && !old(whitespace) then 2 else 1)
      ensures whitespace == isWhitespace && indention == (old(indention) && isIndention)
    {
      if needWhitespace && !whitespace {
        Put(SPACE);
      }
      Put(x);
      whitespace := isWhitespace;
      indention := indention && isIndention;
    }

    /** The code point at `i` and its width, from the bits of its bytes. */
    method Decode(value: seq<Byte>, i: nat, ghost c: CodePoint) returns (v: CodePoint, w: nat)
      requires i < |value| && Here(value, i, Encode(c))
      ensures v == c && w == |Encode(c)|
    {
      DecodesTo(value, i, c);
      hide Here, Encode;
      var octet := value[i];
      var u: int := 0;
      w := 0;
      if octet < 0x80 {
        w, u := 1, octet;
      } else if 0xC0 <= octet < 0xE0 {
        w, u := 2, octet % 0x20;
      } else if 0xE0 <= octet < 0xF0 {
        w, u := 3, octet % 0x10;
      } else if 0xF0 <= octet < 0xF8 {
        w, u := 4, octet % 0x08;
      }
      for k := 1 to w
        invariant u == Accumulated(value, i, k)
      {
        u := u * 64 + value[i + k] % 64;
      }
      v := u;
    }

    /** An escape: a letter, or as many hexadecimal digits as the code point needs. */
    method WriteEscape(v: CodePoint)
      modifies this`out, this`column
      ensures out == old(out) + RenderEscape(v) && column == old(column) + |RenderEscape(v)|
    {
      hide HexDigits;
      Put(BACKSLASH);
      var letter := Letter(v);
      if letter.Some? {
        Put(letter.value);
      } else {
        var w;
        if v <= 0xFF {
          Put(0x78);
          w := 2;
        } else if v <= 0xFFFF {
          Put(0x75);
          w := 4;
        } else {
          Put(0x55);
          w := 8;
        }
        WriteHex(v, w);
      }
    }

    /** The digits from the highest of `w` down. */
    method WriteHex(v: nat, w: nat)
      modifies this`out, this`column
      ensures out == old(out) + HexDigits(v, w) && column == old(column) + w
    {
      for k := 0 to w
        invariant out == old(out) + HexDigits(Shifted(v, w - k), k) && column == old(column) + k
      {
        var digit := Shifted(v, w - 1 - k) % 16;
        Put(HexDigit(digit));
      }
    }

    /** The characters that are not written as they are. */
    predicate MustEscape(value: seq<Byte>, i: nat) {
      || !IsPrintable(value, i) || (!unicode && !IsAscii(value, i))
      || IsBom(value, i) || IsBreak(value, i)
      || At(value, i) == QUOTE || At(value, i) == BACKSLASH
    }

    /** Escaped or raw: what the tests on bytes say about the code point. */
    lemma Choice(value: seq<Byte>, i: nat, c: CodePoint)
      requires Here(value, i, Encode(c))
      ensures MustEscape(value, i) <==> Special(c, unicode, IsBom(value, 0))
      ensures !MustEscape(value, i) ==> PieceFits(Raw(c)) && !IsBom(value, 0)
      ensures MustEscape(value, i) && c == 0x20 ==> IsBom(value, 0)
      ensures At(value, i) == SPACE <==> c == 0x20
    {
      PrintableHere(value, i, c);
      BreakHere(value, i, c);
      HereBytes(value, i, c);
      FirstByte(c);
    }

    function Settings(allowBreaks: bool, bom: bool): Options {
      Options(unicode, bestWidth, Margin(), lineBreak, allowBreaks, bom)
    }

    /** The columns after a fold: where the next fold is possible the line is longer than its indentation. */
    predicate ColumnFits(spaces: bool)
      reads this
    {
      indention ==> column >= Margin() && (!spaces ==> column > Margin())
    }

    /** One turn of the loop. */
    method WriteNext(value: seq<Byte>, allowBreaks: bool, i: nat, spaces: bool, ghost start: seq<Byte>,
                     ghost g: Progress)
        returns (j: nat, spaces': bool, ghost h: Progress)
      requires i < |value| && out == start + g.text
      requires Written(g, value, i, spaces) && ColumnFits(spaces)
      modifies this
      ensures out == start + h.text && Written(h, value, j, spaces') && ColumnFits(spaces') && j > i
      ensures Turns(Settings(allowBreaks, IsBom(value, 0)), g, old(column), spaces, i == 0, h, column, spaces')
    {
      hide EncodeAll, RenderAll, DenoteAll, Tidy, Written, Render, MustEscape, Encode, Here, IsBom, Special;
      NextHere(g, value, i, spaces);
      ghost var c := g.rest[0];
      Choice(value, i, c);
      if MustEscape(value, i) {
        var v, w := Decode(value, i, c);
        j := i + w;
        WriteEscape(v);
        EscapedFits(c);
        WriteOne(g, value, i, spaces, Escaped(c), RenderEscape(c));
        h, spaces' := Progress(g.text + RenderEscape(c), g.rest[1..], g.pieces + [Escaped(c)], false), false;
      } else if value[i] == SPACE {
        j, h := WriteSpace(value, allowBreaks, i, spaces, start, g);
        spaces' := true;
      } else {
        j := WriteChar(value, i, c);
        RawFits(c);
        WriteOne(g, value, i, spaces, Raw(c), Encode(c));
        h, spaces' := Progress(g.text + Encode(c), g.rest[1..], g.pieces + [Raw(c)], false), false;
      }
    }

    /** A space: it is written, or the line is folded there. */
    method WriteSpace(value: seq<Byte>, allowBreaks: bool, i: nat, spaces: bool, ghost start: seq<Byte>,
                      ghost g: Progress)
        returns (j: nat, ghost h: Progress)
      requires i < |value| && out == start + g.text && value[i] == SPACE && !MustEscape(value, i)
      requires Written(g, value, i, spaces) && ColumnFits(spaces)
      modifies this
      ensures out == start + h.text && Written(h, value, j, true) && ColumnFits(true) && j > i
      ensures Turns(Settings(allowBreaks, IsBom(value, 0)), g, old(column), spaces, i == 0, h, column, true)
    {
      hide EncodeAll, RenderAll, DenoteAll, Tidy, Written, Render, MustEscape, Encode, Here, IsBom, Special;
      NextHere(g, value, i, spaces);
      Choice(value, i, g.rest[0]);
      SpaceEncodes();
      if allowBreaks && !spaces && column > bestWidth && i > 0 && i < |value| - 1 {
        WriteIndent();
        Choice(value, i + 1, g.rest[1]);
        ghost var pending := value[i + 1] == SPACE;
        if value[i + 1] == SPACE {
          Put(BACKSLASH);
        }
        j := i + Width(value[i]);
        ghost var fold := Fold(lineBreak, Margin());
        FoldRenders(lineBreak, Margin());
        WriteFold(g, value, i, lineBreak, Margin(), pending);
        ghost var escape: seq<Byte> := if pending then [BACKSLASH] else [];
        h := Progress(g.text + Render(fold) + escape, g.rest[1..], g.pieces + [fold], pending);
      } else {
        j := WriteChar(value, i, 0x20);
        ghost var p := if g.pending then EscapedSpace else Raw(0x20);
        SpaceFits();
        WriteOne(g, value, i, spaces, p, [SPACE]);
        h := Progress(g.text + [SPACE], g.rest[1..], g.pieces + [p], false);
      }
    }

    /**
     Writes the scalar.  Between the quotes stands the text of the layout: pieces that stand for exactly the value.
     */
    method WriteDoubleQuoted(value: seq<Byte>, allowBreaks: bool, ghost cs: seq<CodePoint>)
        returns (ghost ps: seq<Piece>)
      requires value == EncodeAll(cs)
      modifies this
      ensures ps == Layout(Settings(allowBreaks, IsBom(value, 0)), cs,
                           old(column) + (if old(whitespace) then 1 else 2), false, true, false)
      ensures Tidy(ps) && DenoteAll(ps) == value
      ensures out == old(out) + (if old(whitespace) then [] else [SPACE]) + Quoted(ps)
      ensures !whitespace && !indention
    {
      hide EncodeAll, RenderAll, DenoteAll, Tidy, Written, Render, Turns, Layout, IsBom;
      WriteIndicator(QUOTE, true, false, false);
      ghost var start := out;
      ghost var g := Progress([], cs, [], false);
      ghost var o := Settings(allowBreaks, IsBom(value, 0));
      ghost var all := Layout(o, cs, column, false, true, false);
      var spaces := false;
      var i: nat := 0;
      NothingWritten(value, cs);
      assert [] + all == all;
      while i < |value|
        invariant out == start + g.text && Written(g, value, i, spaces) && ColumnFits(spaces)
        invariant g.pieces + Layout(o, g.rest, column, spaces, i == 0, g.pending) == all
      {
        ghost var was, col, blank, first := g, column, spaces, i == 0;
        i, spaces, g := WriteNext(value, allowBreaks, i, spaces, start, g);
        TurnLaysOut(o, was, col, blank, first, g, column, spaces);
      }
      ps := g.pieces;
      AllWritten(g, value, i, spaces);
      WriteIndicator(QUOTE, false, false, false);
    }
  }

  lemma FoldRenders(k: LineBreak, n: nat)
    ensures Render(Fold(k, n)) == BreakBytes(k) + Spaces(n)
  {
  }

  lemma EscapedFits(c: CodePoint)
    ensures PieceFits(Escaped(c)) && Render(Escaped(c)) == [] + RenderEscape(c) && Denote(Escaped(c)) == Encode(c)
  {
    hide RenderEscape, Encode;
  }

  lemma RawFits(c: CodePoint)
    ensures Render(Raw(c)) == [] + Encode(c) && Denote(Raw(c)) == Encode(c)
  {
    hide Encode;
  }

  lemma SpaceFits()
    ensures PieceFits(EscapedSpace) && PieceFits(Raw(0x20))
    ensures Render(EscapedSpace) == [BACKSLASH] + [SPACE] && Render(Raw(0x20)) == [] + [SPACE]
    ensures Denote(EscapedSpace) == Denote(Raw(0x20)) == Encode(0x20)
  {
  }

  lemma NothingWritten(value: seq<Byte>, cs: seq<CodePoint>)
    requires value == EncodeAll(cs)
    ensures Written(Progress([], cs, [], false), value, 0, false)
  {
    assert [] + value == value;
    assert [] + [] == RenderAll([]);
  }

  lemma AllWritten(g: Progress, value: seq<Byte>, i: nat, spaces: bool)
    requires Written(g, value, i, spaces) && i >= |value|
    ensures Tidy(g.pieces) && DenoteAll(g.pieces) == value && g.text == RenderAll(g.pieces)
    ensures forall o, col, first :: g.pieces + Layout(o, g.rest, col, spaces, first, g.pending) == g.pieces
  {
    hide RenderAll, DenoteAll, Tidy;
    NextHere(g, value, i, spaces);
    assert DenoteAll(g.pieces) + [] == DenoteAll(g.pieces);
  }
}
