/**
 The scanner for double-quoted scalars in place, over a NUL-terminated buffer, and the round trip: what the writer
 has written, the scanner reads back.
 */
module QuotedScanner {
  import opened Common
  import opened Utf8
  import opened QuotedScalar
  import opened QuotedText
  import opened QuotedWriter

  class Scanner {
    const buffer: seq<Byte>
    var pos: nat
    var column: nat

    constructor (buffer: seq<Byte>, pos: nat, column: nat)
      ensures this.buffer == buffer && this.pos == pos && this.column == column
    {
      this.buffer, this.pos, this.column := buffer, pos, column;
    }

    method Skip()
      modifies this
      ensures pos == old(pos) + Width(At(buffer, old(pos))) && column == old(column) + 1
    {
      column := column + 1;
      pos := pos + Width(At(buffer, pos));
    }

    method SkipLine()
      requires IsBreak(buffer, pos)
      modifies this
      ensures pos == old(pos + BreakLength(buffer, pos)) && column == 0
    {
      if IsCrLf(buffer, pos) {
        pos := pos + 2;
      } else {
        pos := pos + Width(At(buffer, pos));
      }
      column := 0;
    }

    /** Copies the character at the position, whose width is known not to be zero. */
    method Read(s: seq<Byte>) returns (t: seq<Byte>)
      modifies this
      ensures var w := Width(At(buffer, old(pos)));
              pos == old(pos) + w && column == old(column) + 1 && t == s + Bytes(buffer, old(pos), w)
    {
      var w := Width(At(buffer, pos));
      t := s;
      for k := 0 to w
        invariant t == s + Bytes(buffer, pos, k) && pos == old(pos) && column == old(column)
      {
        t := t + [At(buffer, pos + k)];
      }
      pos := pos + w;
      column := column + 1;
    }

    method ReadLine(s: seq<Byte>) returns (t: seq<Byte>)
      requires IsBreak(buffer, pos)
      modifies this
      ensures pos == old(pos + BreakLength(buffer, pos)) && column == 0 && t == s + LineOf(buffer, old(pos))
    {
      var x, y := At(buffer, pos), At(buffer, pos + 1);
      if x == 0x0D && y == 0x0A {
        t := s + [0x0A];
        pos := pos + 2;
      } else if x == 0x0D || x == 0x0A {
        t := s + [0x0A];
        pos := pos + 1;
      } else if x == 0xC2 && y == 0x85 {
        t := s + [0x0A];
        pos := pos + 2;
      } else {
        t := s + [x, y, At(buffer, pos + 2)];
        pos := pos + 3;
      }
      column := 0;
    }

    /** The value of a code of `n` digits behind the letter. */
    method ScanCode(p: nat, n: nat) returns (v: Option<nat>)
      ensures v == ReadHex(buffer, p, n)
    {
      var value: nat := 0;
      for k := 0 to n
        invariant ReadHex(buffer, p, k) == Some(value)
      {
        var x := At(buffer, p + k);
        if !IsHex(x) {
          NoHex(buffer, p, k + 1, n);
          return None;
        }
        value := value * 16 + AsHex(x);
      }
      v := Some(value);
    }

    /** An escape sequence: its bytes are appended and it is skipped. */
    method ScanEscape(s: seq<Byte>) returns (t: seq<Byte>, failure: Option<Failure>)
      requires At(buffer, pos) == BACKSLASH
      modifies this
      ensures match ReadEscape(buffer, old(pos))
              case BadEscape(f) => failure == Some(f)
              case Escape(bytes, n) =>
                failure == None && t == s + bytes && pos == old(pos) + n && column == old(column) + n
    {
      hide ReadHex, Encode, EscapeLetter;
      t, failure := s, None;
      var x := At(buffer, pos + 1);
      var letter := EscapeLetter(x);
      var codeLength := 0;
      if letter.Some? {
        t := s + letter.value;
      } else if CodeLength(x) == 0 {
        failure := Some(UnknownEscape);
        return;
      } else {
        codeLength := CodeLength(x);
      }
      LetterWidth(x);
      Skip();
      Skip();
      if codeLength > 0 {
        var value := ScanCode(pos, codeLength);
        if value.None? {
          failure := Some(NotHexadecimal);
          return;
        }
        if 0xD800 <= value.value <= 0xDFFF || value.value > 0x10FFFF {
          failure := Some(InvalidCodePoint);
          return;
        }
        t := s + Encode(value.value);
        SkipDigits(codeLength);
      }
    }

    method SkipDigits(n: nat)
      requires ReadHex(buffer, pos, n).Some?
      modifies this
      ensures pos == old(pos) + n && column == old(column) + n
    {
      for k := 0 to n
        invariant pos == old(pos) + k && column == old(column) + k
      {
        DigitsAreHex(buffer, old(pos), n, k);
        Skip();
      }
    }

    /** The loop over non-blank characters; `leading` tells that it ended behind an escaped line break. */
    method ScanTextLoop(s: seq<Byte>) returns (t: seq<Byte>, leading: bool, failure: Option<Failure>)
      modifies this
      ensures failure.Some? ==> ScanText(buffer, old(pos), old(column), s) == ScanFailed(failure.value)
      ensures failure.None? ==> ScanText(buffer, old(pos), old(column), s) == AfterText(buffer, pos, column, t, leading)
      ensures failure.None? && !leading ==> IsBlankZ(buffer, pos) || At(buffer, pos) == QUOTE
      ensures failure.None? ==> pos >= old(pos) && (pos == old(pos) ==> !leading)
    {
      hide ReadEscape, BreakLength, Bytes, Width, IsBlankZ, IsBreak;
      t, leading, failure := s, false, None;
      while !IsBlankZ(buffer, pos) && At(buffer, pos) != QUOTE
        invariant ScanText(buffer, old(pos), old(column), s) == ScanText(buffer, pos, column, t)
        invariant !leading && failure.None? && pos >= old(pos)
        decreases Left(buffer, pos)
      {
        NotAtTheEnd(buffer, pos);
        if At(buffer, pos) == BACKSLASH && IsBreak(buffer, pos + 1) {
          BackslashWidth();
          Skip();
          SkipLine();
          leading := true;
          return;
        } else if At(buffer, pos) == BACKSLASH {
          t, failure := ScanEscape(t);
          if failure.Some? {
            return;
          }
        } else {
          if Width(At(buffer, pos)) == 0 {
            failure := Some(InvalidCharacter);
            return;
          }
          t := Read(t);
        }
      }
      QuoteIsNoBlank(buffer, pos);
    }

    /** The loop over blanks and line breaks. */
    method ScanBlanksLoop(s: seq<Byte>, leading0: bool) returns (t: seq<Byte>)
      modifies this
      ensures ScanBlanks(buffer, old(pos), old(column), s, leading0, [], [], []) == ScanRun(buffer, pos, column, t)
      ensures !IsBlank(buffer, pos) && !IsBreak(buffer, pos)
      ensures pos >= old(pos) && (pos == old(pos) ==> !IsBlank(buffer, old(pos)) && !IsBreak(buffer, old(pos)))
    {
      hide BreakLength, ScanRun, LineOf;
      var leading, whites, first, rest := leading0, [], [], [];
      while IsBlank(buffer, pos) || IsBreak(buffer, pos)
        invariant ScanBlanks(buffer, old(pos), old(column), s, leading0, [], [], []) ==
                  ScanBlanks(buffer, pos, column, s, leading, whites, first, rest)
        invariant pos >= old(pos)
        decreases Left(buffer, pos)
      {
        if IsBlank(buffer, pos) {
          OneByte(buffer, pos);
          if !leading {
            whites := Read(whites);
          } else {
            Skip();
          }
        } else if !leading {
          whites := [];
          first := ReadLine(first);
          leading := true;
        } else {
          rest := ReadLine(rest);
        }
      }
      t := s + Joined(leading, whites, first, rest);
    }

    /** Scans the double-quoted scalar at the position. */
    method ScanFlowScalar() returns (value: seq<Byte>, failure: Option<Failure>)
      requires At(buffer, pos) == QUOTE
      modifies this
      ensures ScanQuoted(buffer, old(pos), old(column)) ==
              if failure.None? then Scanned(value, pos) else ScanFailed(failure.value)
    {
      hide ScanText, ScanBlanks, IsIndicator, IsBreak;
      QuoteWidth();
      Skip();
      value := [];
      while true
        invariant ScanQuoted(buffer, old(pos), old(column)) == ScanRun(buffer, pos, column, value)
        decreases Left(buffer, pos)
      {
        if column == 0 && IsIndicator(buffer, pos) {
          failure := Some(UnexpectedDocumentIndicator);
          return;
        }
        if IsZ(buffer, pos) {
          failure := Some(UnexpectedEnd);
          return;
        }
        var leading;
        value, leading, failure := ScanTextLoop(value);
        if failure.Some? {
          return;
        }
        if At(buffer, pos) == QUOTE {
          break;
        }
        value := ScanBlanksLoop(value, leading);
      }
      Skip();
      failure := None;
    }
  }

  lemma LetterWidth(x: Byte)
    ensures EscapeLetter(x).Some? || CodeLength(x) > 0 ==> Width(x) == 1
  {
  }

  lemma {:induction false} NoHex(b: seq<Byte>, p: nat, k: nat, n: nat)
    requires k <= n && ReadHex(b, p, k).None?
    ensures ReadHex(b, p, n).None?
    decreases n
  {
    if k < n { NoHex(b, p, k, n - 1); }
  }

  lemma {:induction false} DigitsAreHex(b: seq<Byte>, p: nat, n: nat, k: nat)
    requires k < n && ReadHex(b, p, n).Some?
    ensures IsHex(At(b, p + k)) && Width(At(b, p + k)) == 1
    decreases n
  {
    if k < n - 1 { DigitsAreHex(b, p, n - 1, k); }
  }

  /** Behind the text loop: the closing quote or blanks. */
  function AfterText(b: seq<Byte>, p: nat, col: nat, s: seq<Byte>, leading: bool): Scan {
    if At(b, p) == QUOTE then Scanned(s, p + 1) else ScanBlanks(b, p, col, s, leading, [], [], [])
  }

  lemma NotAtTheEnd(b: seq<Byte>, p: nat)
    requires !IsBlankZ(b, p)
    ensures p < |b|
  {
  }

  lemma QuoteWidth()
    ensures Width(QUOTE) == 1
  {
  }

  lemma QuoteIsNoBlank(b: seq<Byte>, p: nat)
    ensures At(b, p) == QUOTE ==> !IsBlankZ(b, p)
  {
  }

  lemma BackslashWidth()
    ensures Width(BACKSLASH) == 1
  {
  }

  lemma OneByte(b: seq<Byte>, p: nat)
    requires IsBlank(b, p)
    ensures Width(At(b, p)) == 1 && Bytes(b, p, 1) == [At(b, p)] && p < |b|
  {
    assert Bytes(b, p, 0) == [];
  }

  /** How the writer, as it stands, lays out a value. */
  ghost function WriterLayout(w: Writer, value: seq<Byte>, allowBreaks: bool, cs: seq<CodePoint>): seq<Piece>
    reads w
  {
    Layout(w.Settings(allowBreaks, IsBom(value, 0)), cs, w.column + (if w.whitespace then 1 else 2), false, true, false)
  }

  /**
   The round trip, for every valid UTF-8 value and every setting of the writer: the scanner reads back exactly the
   value, and stops right behind the closing quote.  It does so exactly unless the layout of the value has a line that
   is folded without indentation and begins like a document indicator; an indentation, as the emitter always has, or
   a value that is not folded rules that out.
   */
  method RoundTrip(value: seq<Byte>, w: Writer, allowBreaks: bool, after: seq<Byte>, ghost cs: seq<CodePoint>)
      returns (read: seq<Byte>, end: nat, failure: Option<Failure>)
    requires value == EncodeAll(cs)
    modifies w
    ensures failure == None <==> !HasIndicator(old(WriterLayout(w, value, allowBreaks, cs)))
    ensures failure == None ==> read == value && end == |w.out|
    ensures failure != None ==> failure == Some(UnexpectedDocumentIndicator)
    ensures w.indent > 0 || !allowBreaks ==> failure == None
  {
    hide EncodeAll, Tidy, ScanQuoted, Quoted, DenoteAll, HasIndicator, Layout;
    var start := |w.out| + if w.whitespace then 0 else 1;
    ghost var before := w.out + if w.whitespace then [] else [SPACE];
    if w.indent > 0 || !allowBreaks { NoMargin(w, value, allowBreaks, cs); }
    ghost var ps := w.WriteDoubleQuoted(value, allowBreaks, cs);
    var s := new Scanner(w.out + after, start, start);
    QuotedReadsBack(before, ps, after, start);
    assert before + Quoted(ps) + after == s.buffer;
    QuotedStarts(before, ps, after);
    read, failure := s.ScanFlowScalar();
    end := s.pos;
  }

  lemma NoMargin(w: Writer, value: seq<Byte>, allowBreaks: bool, cs: seq<CodePoint>)
    requires w.indent > 0 || !allowBreaks
    ensures !HasIndicator(WriterLayout(w, value, allowBreaks, cs))
  {
    hide Layout, HasIndicator;
    var o, ps := w.Settings(allowBreaks, IsBom(value, 0)), WriterLayout(w, value, allowBreaks, cs);
    LayoutIsChosen(o, cs, w.column + (if w.whitespace then 1 else 2), false, true, false);
    forall k | 0 <= k < |ps| && ps[k].Fold? ensures ps[k].indent > 0 {
      assert Chosen(ps[k], o);
    }
    NothingAtTheMargin(ps);
  }

  /** "a --- b". */
  const DashesTail: seq<CodePoint> := [0x2D] + ([0x2D] + ([0x2D] + ([0x20] + ([0x62] + []))))
  const Dashes: seq<CodePoint> := [0x61] + ([0x20] + DashesTail)

  /** With indent 0 and width 0 the writer folds "a --- b" at both spaces, and the scanner does not read it back. */
  method MarginFails(unicode: bool, after: seq<Byte>) returns (failure: Option<Failure>)
    ensures failure == Some(UnexpectedDocumentIndicator)
  {
    hide HasIndicator, Layout;
    var value: seq<Byte> := [0x61, 0x20, 0x2D, 0x2D, 0x2D, 0x20, 0x62];
    var w := new Writer(unicode, 0, 0, LnBreak);
    DashesEncode();
    DashesLayout(w.Settings(true, IsBom(value, 0)));
    DashesAtTheMargin();
    var read, end;
    read, end, failure := RoundTrip(value, w, true, after, Dashes);
  }

  lemma DashesEncode()
    ensures EncodeAll(Dashes) == [0x61, 0x20, 0x2D, 0x2D, 0x2D, 0x20, 0x62]
  {
    assert Dashes == [0x61, 0x20, 0x2D, 0x2D, 0x2D, 0x20, 0x62];
    AsciiEncodes(Dashes);
  }

  lemma {:induction false} AsciiEncodes(cs: seq<CodePoint>)
    requires forall k :: 0 <= k < |cs| ==> cs[k] <= 0x7F
    ensures |EncodeAll(cs)| == |cs| && forall k :: 0 <= k < |cs| ==> EncodeAll(cs)[k] == cs[k]
  {
    if cs != [] { AsciiEncodes(cs[1..]); }
  }

  predicate AlwaysFolds(o: Options) {
    o.bestWidth == 0 && o.margin == 0 && o.lineBreak == LnBreak && o.allowBreaks && !o.bom
  }

  /** A letter or dash stands for itself. */
  lemma LayoutRaw(o: Options, c: CodePoint, rest: seq<CodePoint>, col: nat, spaces: bool, first: bool)
    requires AlwaysFolds(o) && (c == 0x61 || c == 0x62 || c == 0x2D)
    ensures Layout(o, [c] + rest, col, spaces, first, false) == [Raw(c)] + Layout(o, rest, col + 1, false, false, false)
  {
    var cs := [c] + rest;
    assert cs[0] == c && cs[1..] == rest && !Special(c, o.unicode, o.bom);
    hide Special;
    assert NextPiece(o, cs, col, spaces, first, false) == Raw(c);
  }

  /** A single space within the value is where a line ends. */
  lemma LayoutFold(o: Options, rest: seq<CodePoint>, col: nat)
    requires AlwaysFolds(o) && rest != [] && rest[0] != 0x20 && col > 0
    ensures Layout(o, [0x20] + rest, col, false, false, false) ==
            [Fold(LnBreak, 0)] + Layout(o, rest, 0, true, false, false)
  {
    var cs := [0x20] + rest;
    assert cs[0] == 0x20 && cs[1] == rest[0] && cs[1..] == rest && !Special(0x20, o.unicode, o.bom);
    hide Special;
    assert NextPiece(o, cs, col, false, false, false) == Fold(LnBreak, 0);
  }

  lemma DashesLayout(o: Options)
    requires AlwaysFolds(o)
    ensures Layout(o, Dashes, 1, false, true, false) == FoldedDashes
  {
    hide Layout;
    TailLayout(o);
    LayoutFold(o, DashesTail, 2);
    LayoutRaw(o, 0x61, [0x20] + DashesTail, 1, false, true);
  }

  lemma TailLayout(o: Options)
    requires AlwaysFolds(o)
    ensures Layout(o, DashesTail, 0, true, false, false) == FoldedTail
  {
    LayoutRaw(o, 0x62, [], 0, true, false);
    assert Layout(o, [], 1, false, false, false) == [];
    hide Layout;
    LayoutFold(o, [0x62] + [], 3);
    LayoutRaw(o, 0x2D, [0x20] + ([0x62] + []), 2, false, false);
    LayoutRaw(o, 0x2D, [0x2D] + ([0x20] + ([0x62] + [])), 1, false, false);
    LayoutRaw(o, 0x2D, [0x2D] + ([0x2D] + ([0x20] + ([0x62] + []))), 0, true, false);
  }

  lemma QuotedStarts(before: seq<Byte>, ps: seq<Piece>, after: seq<Byte>)
    ensures At(before + Quoted(ps) + after, |before|) == QUOTE
  {
  }
}
