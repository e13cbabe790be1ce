/**
 Double-quoted text as YAML 1.1 has it, sections 5.7 and 9.1.1: characters, escapes, line folding and escaped line
 breaks, each with what it denotes.  Whatever such a text is, the scanner reads it as what it denotes.
 */
module QuotedText {
  import opened Common
  import opened Utf8
  import opened QuotedScalar

  // ---------------------------------------------------------------- texts and what they denote

  datatype BreakForm = Cr | Ln | CrLn | Nel | Ls | Ps

  function FormBytes(k: BreakForm): (t: seq<Byte>)
    ensures t != []
  {
    match k
    case Cr => [0x0D]
    case Ln => [0x0A]
    case CrLn => [0x0D, 0x0A]
    case Nel => [0xC2, 0x85]
    case Ls => [0xE2, 0x80, 0xA8]
    case Ps => [0xE2, 0x80, 0xA9]
  }

  /** Line and paragraph separators are kept; all other breaks are line feeds. */
  predicate Kept(k: BreakForm) {
    k.Ls? || k.Ps?
  }

  function LineValue(k: BreakForm): seq<Byte> {
    if Kept(k) then FormBytes(k) else [0x0A]
  }

  /** White space around line breaks. */
  datatype Item = Blank(tab: bool) | Line(form: BreakForm)

  function ItemText(i: Item): (t: seq<Byte>)
    ensures t != []
  {
    if i.Line? then FormBytes(i.form) else if i.tab then [0x09] else [SPACE]
  }

  function ItemsText(items: seq<Item>): seq<Byte> {
    if items == [] then [] else ItemText(items[0]) + ItemsText(items[1..])
  }

  /** The line breaks themselves, without the blanks around them. */
  function Lines(items: seq<Item>): seq<Byte> {
    if items == [] then []
    else (if items[0].Line? then LineValue(items[0].form) else []) + Lines(items[1..])
  }

  /**
   Line folding: blanks at the end and at the beginning of lines are dropped; a single line feed is a space, and of
   several the first is dropped; a separator is kept with all breaks behind it.
   */
  function Folded(items: seq<Item>): seq<Byte> {
    if items == [] then []
    else if items[0].Blank? then Folded(items[1..])
    else if Kept(items[0].form) then LineValue(items[0].form) + Lines(items[1..])
    else if Lines(items[1..]) == [] then [SPACE]
    else Lines(items[1..])
  }

  /** The characters that stand behind a backslash, and the code points they stand for. */
  function Named(letter: Byte): Option<CodePoint> {
    match letter
    case 0x30 => Some(0x00)     // 0
    case 0x61 => Some(0x07)     // a
    case 0x62 => Some(0x08)     // b
    case 0x74 => Some(0x09)     // t
    case 0x09 => Some(0x09)     // a tab
    case 0x6E => Some(0x0A)     // n
    case 0x76 => Some(0x0B)     // v
    case 0x66 => Some(0x0C)     // f
    case 0x72 => Some(0x0D)     // r
    case 0x65 => Some(0x1B)     // e
    case 0x20 => Some(0x20)     // a space
    case 0x22 => Some(0x22)     // double quote
    case 0x27 => Some(0x27)     // single quote, which YAML 1.1 does not have
    case 0x5C => Some(0x5C)     // backslash
    case 0x4E => Some(0x85)     // N
    case 0x5F => Some(0xA0)     // _
    case 0x4C => Some(0x2028)   // L
    case 0x50 => Some(0x2029)   // P
    case _ => None
  }

  function Digit(x: Byte): Option<nat> {
    match x
    case 0x30 => Some(0)
    case 0x31 => Some(1)
    case 0x32 => Some(2)
    case 0x33 => Some(3)
    case 0x34 => Some(4)
    case 0x35 => Some(5)
    case 0x36 => Some(6)
    case 0x37 => Some(7)
    case 0x38 => Some(8)
    case 0x39 => Some(9)
    case 0x41 => Some(10)       // A
    case 0x42 => Some(11)
    case 0x43 => Some(12)
    case 0x44 => Some(13)
    case 0x45 => Some(14)
    case 0x46 => Some(15)
    case 0x61 => Some(10)       // a
    case 0x62 => Some(11)
    case 0x63 => Some(12)
    case 0x64 => Some(13)
    case 0x65 => Some(14)
    case 0x66 => Some(15)
    case _ => None
  }

  predicate AllDigits(ds: seq<Byte>) {
    forall k :: 0 <= k < |ds| ==> Digit(ds[k]).Some?
  }

  function HexValue(ds: seq<Byte>): nat
    requires AllDigits(ds)
  {
    if ds == [] then 0 else HexValue(ds[..|ds| - 1]) * 16 + Digit(ds[|ds| - 1]).value
  }

  datatype Part =
    | Char(c: CodePoint)
    | Escape(letter: Byte)
    | Coded(digits: seq<Byte>)
    | Gap(items: seq<Item>)
    | Continued(form: BreakForm, items: seq<Item>)

  function PartText(p: Part): seq<Byte> {
    match p
    case Char(c) => Encode(c)
    case Escape(x) => [BACKSLASH, x]
    case Coded(ds) => [BACKSLASH, if |ds| == 2 then 0x78 else if |ds| == 4 then 0x75 else 0x55] + ds
    case Gap(items) => ItemsText(items)
    case Continued(k, items) => [BACKSLASH] + ItemsText([Line(k)] + items)
  }

  /** An escaped line break denotes nothing, but the breaks behind it are kept. */
  function PartValue(p: Part): seq<Byte>
    requires Fits(p)
  {
    match p
    case Char(c) => Encode(c)
    case Escape(x) => Encode(Named(x).value)
    case Coded(ds) => Encode(HexValue(ds))
    case Gap(items) => Folded(items)
    case Continued(_, items) => Lines(items)
  }

  /** CR and LF next to each other are one break. */
  predicate Apart(items: seq<Item>) {
    forall k :: 0 <= k < |items| - 1 ==> !(items[k] == Line(Cr) && items[k + 1] == Line(Ln))
  }

  predicate HasLine(items: seq<Item>) {
    exists k :: 0 <= k < |items| && items[k].Line?
  }

  predicate Fits(p: Part) {
    match p
    case Char(c) => c != 0 && !Break(c) && c != 0x22 && c != 0x5C
    case Escape(x) => Named(x).Some?
    case Coded(ds) =>
      && (|ds| == 2 || |ds| == 4 || |ds| == 8) && AllDigits(ds)
      && HexValue(ds) <= 0x10FFFF && !(0xD800 <= HexValue(ds) <= 0xDFFF)
    case Gap(items) => HasLine(items) && Apart(items)
    case Continued(k, items) => Apart([Line(k)] + items)
  }

  predicate IsBlankChar(p: Part) {
    p == Char(0x20) || p == Char(0x09)
  }

  /** White space around a line break belongs to its gap. */
  predicate Beside(p: Part, q: Part) {
    && (p.Gap? || p.Continued? ==> !q.Gap? && !IsBlankChar(q))
    && (IsBlankChar(p) ==> !q.Gap?)
  }

  predicate WellFormed(ps: seq<Part>) {
    && (forall k :: 0 <= k < |ps| ==> Fits(ps[k]))
    && (forall k :: 0 <= k < |ps| - 1 ==> Beside(ps[k], ps[k + 1]))
  }

  function Text(ps: seq<Part>): seq<Byte> {
    if ps == [] then [] else PartText(ps[0]) + Text(ps[1..])
  }

  function ValueOf(ps: seq<Part>): seq<Byte>
    requires forall k :: 0 <= k < |ps| ==> Fits(ps[k])
  {
    if ps == [] then [] else PartValue(ps[0]) + ValueOf(ps[1..])
  }

  /** The part ends with a line break, so that the next one begins at the margin. */
  predicate EndsLine(p: Part) {
    (p.Gap? && p.items != [] && p.items[|p.items| - 1].Line?)
    || (p.Continued? && (p.items == [] || p.items[|p.items| - 1].Line?))
  }

  /** A line at the margin begins like a document indicator. */
  predicate IndicatorAt(p: Part, rest: seq<Part>) {
    EndsLine(p) && LooksLikeIndicator(Text(rest) + [QUOTE])
  }

  /** Three hyphens or three dots, and white space behind them. */
  predicate LooksLikeIndicator(t: seq<Byte>) {
    |t| > 3 && (t[..3] == [0x2D, 0x2D, 0x2D] || t[..3] == [0x2E, 0x2E, 0x2E]) && IsBlankZ(t, 3)
  }

  lemma IndicatorLooks(t: seq<Byte>)
    requires t != [] && t[|t| - 1] == QUOTE
    ensures IsIndicator(t, 0) <==> LooksLikeIndicator(t)
  {
  }

  predicate HasIndicatorLine(ps: seq<Part>) {
    ps != [] && (IndicatorAt(ps[0], ps[1..]) || HasIndicatorLine(ps[1..]))
  }

  /** What is to be made of a text: its value, or the error. */
  function Meaning(s: seq<Byte>, ps: seq<Part>, end: nat): Scan
    requires forall k :: 0 <= k < |ps| ==> Fits(ps[k])
  {
    if HasIndicatorLine(ps) then ScanFailed(UnexpectedDocumentIndicator) else Scanned(s + ValueOf(ps), end)
  }

  /** Folding in numbers: a break and `k` more that are no separators denote `k` line feeds, or a space if `k` is 0. */
  lemma {:induction false} BlankLinesStay(items: seq<Item>)
    requires HasLine(items) && forall k :: 0 <= k < |items| && items[k].Line? ==> !Kept(items[k].form)
    ensures CountLines(items) >= 1
    ensures Folded(items) == if CountLines(items) == 1 then [SPACE] else LineFeeds(CountLines(items) - 1)
  {
    if items[0].Blank? {
      var k :| 0 <= k < |items| && items[k].Line?;
      assert items[1..][k - 1].Line?;
      BlankLinesStay(items[1..]);
    } else {
      hide HasLine;
      LinesAreFeeds(items[1..]);
    }
  }

  function CountLines(items: seq<Item>): nat {
    if items == [] then 0 else (if items[0].Line? then 1 else 0) + CountLines(items[1..])
  }

  function LineFeeds(n: nat): (t: seq<Byte>)
    ensures |t| == n
  {
    seq(n, i => 0x0A)
  }

  lemma {:induction false} LinesAreFeeds(items: seq<Item>)
    requires forall k :: 0 <= k < |items| && items[k].Line? ==> !Kept(items[k].form)
    ensures Lines(items) == LineFeeds(CountLines(items))
  {
    if items != [] { LinesAreFeeds(items[1..]); }
  }

  // ---------------------------------------------------------------- white space is read

  lemma LineHere(b: seq<Byte>, p: nat, k: BreakForm)
    requires Here(b, p, FormBytes(k)) && (k.Cr? ==> At(b, p + 1) != 0x0A)
    ensures IsBreak(b, p) && !IsBlank(b, p) && BreakLength(b, p) == |FormBytes(k)| && LineOf(b, p) == LineValue(k)
  {
    var t := FormBytes(k);
    assert b[p + 0] == t[0];
    if |t| > 1 { assert b[p + 1] == t[1]; }
    if |t| > 2 { assert b[p + 2] == t[2]; }
  }

  /** What may stand behind white space. */
  predicate NoWhite(b: seq<Byte>, p: nat) {
    !IsBlank(b, p) && !IsBreak(b, p)
  }

  /** The first of some items, and what stands behind it. */
  lemma FirstItem(b: seq<Byte>, p: nat, items: seq<Item>)
    requires items != [] && Here(b, p, ItemsText(items)) && Apart(items) && NoWhite(b, p + |ItemsText(items)|)
    ensures Apart(items[1..]) && Here(b, p + |ItemText(items[0])|, ItemsText(items[1..]))
    ensures p + |ItemsText(items)| == p + |ItemText(items[0])| + |ItemsText(items[1..])|
    ensures items[0].Blank? ==> IsBlank(b, p) && |ItemText(items[0])| == 1 && [At(b, p)] == ItemText(items[0])
    ensures items[0].Line? ==>
              && IsBreak(b, p) && !IsBlank(b, p) && BreakLength(b, p) == |ItemText(items[0])|
              && LineOf(b, p) == LineValue(items[0].form)
  {
    hide IsBreak, BreakLength, LineOf, LineValue, NoWhite, Apart, IsBlank, ItemText, Here;
    HereConcat(b, p, ItemText(items[0]), ItemsText(items[1..]));
    ApartBehind(items);
    if items[0].Blank? { BlankHere(b, p, items[0]); } else { FirstLine(b, p, items); }
  }

  lemma FirstLine(b: seq<Byte>, p: nat, items: seq<Item>)
    requires items != [] && items[0].Line? && Here(b, p, ItemText(items[0])) && Apart(items)
    requires var q := p + |ItemText(items[0])|;
             Here(b, q, ItemsText(items[1..])) && NoWhite(b, q + |ItemsText(items[1..])|)
    ensures IsBreak(b, p) && !IsBlank(b, p) && BreakLength(b, p) == |ItemText(items[0])|
    ensures LineOf(b, p) == LineValue(items[0].form)
  {
    hide IsBreak, BreakLength, LineOf, LineValue, NoWhite, Apart, IsBlank, ItemsText, Here;
    if items[0].form.Cr? { NoFeedBehind(b, p, items); }
    LineHere(b, p, items[0].form);
  }

  lemma BlankHere(b: seq<Byte>, p: nat, i: Item)
    requires i.Blank? && Here(b, p, ItemText(i))
    ensures IsBlank(b, p) && |ItemText(i)| == 1 && [At(b, p)] == ItemText(i)
  {
    assert b[p + 0] == ItemText(i)[0];
  }

  lemma ApartBehind(items: seq<Item>)
    requires items != [] && Apart(items)
    ensures Apart(items[1..])
  {
    forall k | 0 <= k < |items| - 2 ensures !(items[1..][k] == Line(Cr) && items[1..][k + 1] == Line(Ln)) {
      assert !(items[k + 1] == Line(Cr) && items[k + 2] == Line(Ln));
    }
  }

  lemma NoFeedBehind(b: seq<Byte>, p: nat, items: seq<Item>)
    requires items != [] && items[0] == Line(Cr) && Apart(items)
    requires Here(b, p + 1, ItemsText(items[1..])) && NoWhite(b, p + 1 + |ItemsText(items[1..])|)
    ensures At(b, p + 1) != 0x0A
  {
    if |items| > 1 {
      assert !(items[0] == Line(Cr) && items[0 + 1] == Line(Ln));
      var t := ItemsText(items[1..]);
      assert t == ItemText(items[1]) + ItemsText(items[1..][1..]);
      assert b[p + 1 + 0] == t[0];
    }
  }

  /** The column behind some items. */
  function ColumnBehind(col: nat, items: seq<Item>): nat
    decreases |items|
  {
    if items == [] then col
    else ColumnBehind(if items[0].Line? then 0 else col + 1, items[1..])
  }

  lemma {:induction false} ColumnIsZero(col: nat, items: seq<Item>)
    ensures ColumnBehind(col, items) == 0 <==>
            if items == [] then col == 0 else items[|items| - 1].Line?
    decreases |items|
  {
    if items != [] { ColumnIsZero(if items[0].Line? then 0 else col + 1, items[1..]); }
  }

  /** Behind the first break: blanks are skipped, and breaks collected. */
  lemma {:induction false} BreaksRead(b: seq<Byte>, p: nat, col: nat, s: seq<Byte>, first: seq<Byte>, rest: seq<Byte>,
                                      items: seq<Item>)
    requires Here(b, p, ItemsText(items)) && Apart(items) && NoWhite(b, p + |ItemsText(items)|)
    ensures ScanBlanks(b, p, col, s, true, [], first, rest) ==
            ScanRun(b, p + |ItemsText(items)|, ColumnBehind(col, items),
                    s + Joined(true, [], first, rest + Lines(items)))
    decreases |items|
  {
    hide ScanRun, Joined, IsBlank, IsBreak, BreakLength, LineOf, LineValue, Apart, Here, ItemText;
    if items == [] {
      assert rest + [] == rest;
    } else {
      FirstItem(b, p, items);
      var q := p + |ItemText(items[0])|;
      if items[0].Line? {
        BreaksRead(b, q, 0, s, first, rest + LineValue(items[0].form), items[1..]);
        assert rest + LineValue(items[0].form) + Lines(items[1..]) == rest + Lines(items);
      } else {
        BreaksRead(b, q, col + 1, s, first, rest, items[1..]);
        assert Lines(items) == Lines(items[1..]);
      }
    }
  }

  /** A whole gap. */
  lemma {:induction false} GapRead(b: seq<Byte>, p: nat, col: nat, s: seq<Byte>, whites: seq<Byte>, items: seq<Item>)
    requires Here(b, p, ItemsText(items)) && Apart(items) && NoWhite(b, p + |ItemsText(items)|) && HasLine(items)
    ensures ScanBlanks(b, p, col, s, false, whites, [], []) ==
            ScanRun(b, p + |ItemsText(items)|, ColumnBehind(col, items), s + Folded(items))
    decreases |items|
  {
    hide ScanRun, Joined, IsBlank, IsBreak, BreakLength, LineOf, LineValue, Apart, Here, NoWhite, Lines, ItemText;
    FirstItem(b, p, items);
    var q := p + |ItemText(items[0])|;
    if items[0].Line? {
      FirstLineRead(b, p, col, s, whites, items);
    } else {
      var k :| 0 <= k < |items| && items[k].Line?;
      assert items[1..][k - 1].Line?;
      GapRead(b, q, col + 1, s, whites + [At(b, p)], items[1..]);
    }
  }

  lemma FirstLineRead(b: seq<Byte>, p: nat, col: nat, s: seq<Byte>, whites: seq<Byte>, items: seq<Item>)
    requires items != [] && items[0].Line? && IsBreak(b, p) && !IsBlank(b, p)
    requires BreakLength(b, p) == |ItemText(items[0])| && LineOf(b, p) == LineValue(items[0].form)
    requires Here(b, p + |ItemText(items[0])|, ItemsText(items[1..])) && Apart(items[1..])
    requires NoWhite(b, p + |ItemText(items[0])| + |ItemsText(items[1..])|)
    ensures ScanBlanks(b, p, col, s, false, whites, [], []) ==
            ScanRun(b, p + |ItemsText(items)|, ColumnBehind(col, items), s + Folded(items))
  {
    hide ScanRun, Joined, IsBlank, IsBreak, BreakLength, LineOf, LineValue, Apart, Here, NoWhite, Folded, Lines,
      ItemText;
    var first := LineValue(items[0].form);
    assert [] + first == first && [] + Lines(items[1..]) == Lines(items[1..]);
    BreaksRead(b, p + |ItemText(items[0])|, 0, s, first, [], items[1..]);
    JoinedIsFolded(items);
  }

  /** What the scanner joins is what folding denotes. */
  lemma JoinedIsFolded(items: seq<Item>)
    requires items != [] && items[0].Line?
    ensures Joined(true, [], LineValue(items[0].form), Lines(items[1..])) == Folded(items)
  {
  }

  // ---------------------------------------------------------------- characters and escapes are read

  lemma NamedIsRead(x: Byte)
    ensures EscapeLetter(x) == match Named(x) case Some(c) => Some(Encode(c)) case None => None
    ensures Named(x).Some? ==> x != 0x0D && x != 0x0A && x < 0x80
  {
  }

  lemma DigitIsHex(x: Byte)
    ensures IsHex(x) <==> Digit(x).Some?
    ensures IsHex(x) ==> Digit(x) == Some(AsHex(x))
  {
  }

  lemma {:induction false} DigitsRead(b: seq<Byte>, p: nat, ds: seq<Byte>)
    requires Here(b, p, ds) && AllDigits(ds)
    ensures ReadHex(b, p, |ds|) == Some(HexValue(ds))
    decreases |ds|
  {
    hide Digit, IsHex, AsHex;
    if ds != [] {
      DigitIsHex(ds[|ds| - 1]);
      var n := |ds| - 1;
      assert ds == ds[..n] + [ds[n]];
      HereConcat(b, p, ds[..n], [ds[n]]);
      assert b[p + n] == ds[n];
      DigitsRead(b, p, ds[..n]);
    }
  }

  lemma CodedRead(b: seq<Byte>, p: nat, ds: seq<Byte>)
    requires Fits(Coded(ds)) && Here(b, p, PartText(Coded(ds)))
    ensures ReadEscape(b, p) == QuotedScalar.Escape(Encode(HexValue(ds)), 2 + |ds|)
    ensures At(b, p) == BACKSLASH && !IsBreak(b, p + 1)
  {
    hide Encode, HexValue, EscapeLetter, Here, Digit, ReadHex;
    var x: Byte := if |ds| == 2 then 0x78 else if |ds| == 4 then 0x75 else 0x55;
    HereConcat(b, p, [BACKSLASH, x], ds);
    TwoHere(b, p, BACKSLASH, x);
    DigitsRead(b, p + 2, ds);
    assert EscapeLetter(x) == None by { LetterOfCode(x); }
  }

  lemma LetterOfCode(x: Byte)
    requires x == 0x78 || x == 0x75 || x == 0x55
    ensures EscapeLetter(x) == None
  {
  }

  lemma TwoHere(b: seq<Byte>, p: nat, x: Byte, y: Byte)
    requires Here(b, p, [x, y])
    ensures At(b, p) == x && At(b, p + 1) == y
  {
    assert b[p + 0] == [x, y][0] && b[p + 1] == [x, y][1];
  }

  lemma EscapeRead(b: seq<Byte>, p: nat, x: Byte)
    requires Fits(Part.Escape(x)) && Here(b, p, [BACKSLASH, x])
    ensures ReadEscape(b, p) == QuotedScalar.Escape(Encode(Named(x).value), 2)
    ensures At(b, p) == BACKSLASH && !IsBreak(b, p + 1)
  {
    hide Encode, EscapeLetter, Named;
    assert b[p + 0] == [BACKSLASH, x][0] && b[p + 1] == [BACKSLASH, x][1];
    NamedIsRead(x);
  }

  lemma {:induction false} BytesHere(b: seq<Byte>, p: nat, t: seq<Byte>)
    requires Here(b, p, t)
    ensures Bytes(b, p, |t|) == t
  {
    if t != [] {
      var init := t[..|t| - 1];
      assert t == init + [t[|t| - 1]];
      assert b[p + (|t| - 1)] == t[|t| - 1];
      assert Here(b, p, init) by { HereConcat(b, p, init, [t[|t| - 1]]); }
      BytesHere(b, p, init);
    }
  }

  lemma CharRead(b: seq<Byte>, p: nat, col: nat, s: seq<Byte>, c: CodePoint)
    requires Here(b, p, Encode(c)) && !IsBlankZ(b, p) && At(b, p) != QUOTE && At(b, p) != BACKSLASH
    ensures ScanText(b, p, col, s) == ScanText(b, p + |Encode(c)|, col + 1, s + Encode(c))
  {
    hide IsBlankZ, Encode, Width;
    HereBytes(b, p, c);
    WidthOfEncoding(c);
    BytesHere(b, p, Encode(c));
  }

  // ---------------------------------------------------------------- texts are read

  /** The rest of a quoted text: parts and the closing quote. */
  ghost predicate TextHere(b: seq<Byte>, p: nat, ps: seq<Part>) {
    Here(b, p, Text(ps) + [QUOTE]) && WellFormed(ps)
  }

  function TextEnd(p: nat, ps: seq<Part>): nat {
    p + |Text(ps)| + 1
  }

  lemma TextStarts(b: seq<Byte>, p: nat, ps: seq<Part>)
    requires TextHere(b, p, ps)
    ensures ps == [] ==> At(b, p) == QUOTE
    ensures ps != [] ==>
              && Here(b, p, PartText(ps[0])) && Fits(ps[0]) && TextHere(b, p + |PartText(ps[0])|, ps[1..])
              && TextEnd(p, ps) == TextEnd(p + |PartText(ps[0])|, ps[1..])
              && (|ps| > 1 ==> Beside(ps[0], ps[1]))
  {
    hide PartText, Fits;
    if ps == [] {
      assert b[p + 0] == (Text(ps) + [QUOTE])[0];
    } else {
      assert Text(ps) + [QUOTE] == PartText(ps[0]) + (Text(ps[1..]) + [QUOTE]);
      HereConcat(b, p, PartText(ps[0]), Text(ps[1..]) + [QUOTE]);
      forall k | 0 <= k < |ps| - 2 ensures Beside(ps[1..][k], ps[1..][k + 1]) {
        assert Beside(ps[k + 1], ps[k + 2]);
      }
    }
  }

  /** What begins at the first byte of a part that is no gap, as the scanner sees it. */
  lemma PartStarts(b: seq<Byte>, p: nat, part: Part)
    requires Here(b, p, PartText(part)) && Fits(part) && !part.Gap?
    ensures IsBlankZ(b, p) <==> IsBlankChar(part)
    ensures !IsBreak(b, p) && !IsZ(b, p) && At(b, p) != QUOTE
    ensures At(b, p) == BACKSLASH <==> !part.Char?
  {
    match part
    case Char(c) =>
      BreakHere(b, p, c);
      HereBytes(b, p, c);
      FirstByte(c);
    case Escape(x) =>
      EscapeRead(b, p, x);
    case Coded(ds) =>
      CodedRead(b, p, ds);
    case Continued(k, items) =>
      assert b[p + 0] == PartText(part)[0];
  }

  /** A text that begins with no white space. */
  predicate Starts(ps: seq<Part>) {
    ps != [] ==> !ps[0].Gap? && !IsBlankChar(ps[0])
  }

  lemma NoWhiteStarts(b: seq<Byte>, p: nat, ps: seq<Part>)
    requires TextHere(b, p, ps) && Starts(ps)
    ensures NoWhite(b, p) && !IsBlankZ(b, p) && (At(b, p) == QUOTE <==> ps == [])
  {
    hide Text, WellFormed, PartText, Fits;
    TextStarts(b, p, ps);
    if ps != [] { PartStarts(b, p, ps[0]); }
  }

  /** Whether an indicator stands in a text does not depend on what follows the text's closing quote. */
  lemma RunIsText(b: seq<Byte>, p: nat, col: nat, s: seq<Byte>, ps: seq<Part>)
    requires TextHere(b, p, ps) && Starts(ps)
    ensures ScanRun(b, p, col, s) ==
            if col == 0 && LooksLikeIndicator(Text(ps) + [QUOTE]) then ScanFailed(UnexpectedDocumentIndicator)
            else ScanText(b, p, col, s)
  {
    hide ScanText, Text, IsIndicator, LooksLikeIndicator, WellFormed;
    NoWhiteStarts(b, p, ps);
    IndicatorHere(b, p, Text(ps) + [QUOTE]);
    IndicatorLooks(Text(ps) + [QUOTE]);
  }

  /** The columns that the scanner counts. */
  function Columns(part: Part): (n: nat)
    ensures n >= 1
  {
    match part
    case Coded(ds) => 2 + |ds|
    case Escape(_) => 2
    case _ => 1
  }

  /** A part that is neither white space nor an escaped line break. */
  lemma SolidRead(b: seq<Byte>, p: nat, col: nat, s: seq<Byte>, part: Part)
    requires Here(b, p, PartText(part)) && Fits(part) && !IsBlankChar(part) && !part.Gap? && !part.Continued?
    ensures ScanText(b, p, col, s) == ScanText(b, p + |PartText(part)|, col + Columns(part), s + PartValue(part))
  {
    PartStarts(b, p, part);
    hide ReadEscape, Encode, HexValue, Named, IsBlankZ, IsBreak;
    match part
    case Char(c) =>
      CharRead(b, p, col, s, c);
    case Escape(x) =>
      EscapeRead(b, p, x);
      assert ScanText(b, p, col, s) == ScanText(b, p + 2, col + 2, s + PartValue(part));
    case Coded(ds) =>
      CodedRead(b, p, ds);
      assert ScanText(b, p, col, s) == ScanText(b, p + (2 + |ds|), col + (2 + |ds|), s + PartValue(part));
  }

  /** The meaning one part on. */
  lemma MeaningBehind(s: seq<Byte>, ps: seq<Part>, end: nat)
    requires ps != [] && forall k :: 0 <= k < |ps| ==> Fits(ps[k])
    ensures Meaning(s, ps, end) == if IndicatorAt(ps[0], ps[1..]) then ScanFailed(UnexpectedDocumentIndicator)
                                   else Meaning(s + PartValue(ps[0]), ps[1..], end)
  {
    hide IndicatorAt, PartValue, Fits;
    assert s + PartValue(ps[0]) + ValueOf(ps[1..]) == s + ValueOf(ps);
  }

  /** A run of blanks, and what follows: the blanks loop keeps them. */
  lemma {:induction false} BlanksRead(b: seq<Byte>, p: nat, col: nat, s: seq<Byte>, whites: seq<Byte>, ps: seq<Part>)
    requires TextHere(b, p, ps) && col >= 1 && (ps != [] ==> !ps[0].Gap?)
    ensures ScanBlanks(b, p, col, s, false, whites, [], []) == Meaning(s + whites, ps, TextEnd(p, ps))
    decreases |ps|, 2
  {
    hide WellFormed, TextHere, ScanText, ScanRun, Text, Fits, Meaning, IsBreak, IsZ, Here;
    TextStarts(b, p, ps);
    if ps != [] && IsBlankChar(ps[0]) {
      BlankStarts(b, p, ps[0]);
      BlanksRead(b, p + 1, col + 1, s, whites + [At(b, p)], ps[1..]);
      assert s + (whites + [At(b, p)]) == s + whites + [At(b, p)];
      AllFit(b, p, ps);
      MeaningBehind(s + whites, ps, TextEnd(p, ps));
    } else {
      NoWhiteStarts(b, p, ps);
      RunIsText(b, p, col, s + whites, ps);
      TextRead(b, p, col, s + whites, ps);
    }
  }

  lemma AllFit(b: seq<Byte>, p: nat, ps: seq<Part>)
    requires TextHere(b, p, ps)
    ensures forall k :: 0 <= k < |ps| ==> Fits(ps[k])
  {
  }

  lemma BlankStarts(b: seq<Byte>, p: nat, part: Part)
    requires IsBlankChar(part) && Here(b, p, PartText(part)) && Fits(part)
    ensures IsBlank(b, p) && !IsBreak(b, p) && |PartText(part)| == 1 && PartValue(part) == [At(b, p)]
  {
    assert b[p + 0] == PartText(part)[0];
  }

  /** The text of any parts is scanned to what they denote. */
  lemma {:induction false} TextRead(b: seq<Byte>, p: nat, col: nat, s: seq<Byte>, ps: seq<Part>)
    requires TextHere(b, p, ps) && (col >= 1 || Starts(ps))
    ensures ScanText(b, p, col, s) == Meaning(s, ps, TextEnd(p, ps))
    decreases |ps|, 1
  {
    hide WellFormed, TextHere, ScanText, ScanBlanks, ScanRun, Text, Fits, Meaning, IndicatorAt, PartText, PartValue,
      Here;
    TextStarts(b, p, ps);
    AllFit(b, p, ps);
    if ps == [] {
      QuoteRead(b, p, col, s);
    } else if IsBlankChar(ps[0]) {
      BlankStarts(b, p, ps[0]);
      BlankRead(b, p, col, s);
      BlanksRead(b, p + 1, col + 1, s, [At(b, p)], ps[1..]);
      MeaningBehind(s, ps, TextEnd(p, ps));
      assert !IndicatorAt(ps[0], ps[1..]) by { SolidEndsNoLine(ps[0], ps[1..]); }
    } else if ps[0].Gap? {
      GapPartRead(b, p, col, s, ps);
    } else if ps[0].Continued? {
      ContinuedRead(b, p, col, s, ps);
    } else {
      SolidRead(b, p, col, s, ps[0]);
      TextRead(b, p + |PartText(ps[0])|, col + Columns(ps[0]), s + PartValue(ps[0]), ps[1..]);
      MeaningBehind(s, ps, TextEnd(p, ps));
      assert !IndicatorAt(ps[0], ps[1..]) by { SolidEndsNoLine(ps[0], ps[1..]); }
    }
  }

  lemma SolidEndsNoLine(p: Part, rest: seq<Part>)
    requires !p.Gap? && !p.Continued?
    ensures !IndicatorAt(p, rest)
  {
  }

  lemma QuoteRead(b: seq<Byte>, p: nat, col: nat, s: seq<Byte>)
    requires At(b, p) == QUOTE
    ensures ScanText(b, p, col, s) == Meaning(s, [], p + |Text([])| + 1)
  {
    assert s + [] == s;
  }

  lemma BlankRead(b: seq<Byte>, p: nat, col: nat, s: seq<Byte>)
    requires IsBlank(b, p) && !IsBreak(b, p)
    ensures ScanText(b, p, col, s) == ScanBlanks(b, p + 1, col + 1, s, false, [At(b, p)], [], [])
  {
    assert [] + [At(b, p)] == [At(b, p)];
  }

  lemma WhiteRead(b: seq<Byte>, p: nat, col: nat, s: seq<Byte>)
    requires IsBlank(b, p) || IsBreak(b, p)
    ensures ScanText(b, p, col, s) == ScanBlanks(b, p, col, s, false, [], [], [])
  {
  }

  /** Behind a gap or an escaped line break. */
  lemma {:induction false} BehindLine(b: seq<Byte>, q: nat, col: nat, s: seq<Byte>, ps: seq<Part>)
    requires TextHere(b, q, ps) && Starts(ps)
    ensures ScanRun(b, q, col, s) ==
            if col == 0 && LooksLikeIndicator(Text(ps) + [QUOTE]) then ScanFailed(UnexpectedDocumentIndicator)
            else Meaning(s, ps, TextEnd(q, ps))
    decreases |ps|, 2
  {
    hide TextHere, ScanText, ScanRun, Text, Meaning, Starts, LooksLikeIndicator;
    RunIsText(b, q, col, s, ps);
    TextRead(b, q, col, s, ps);
  }

  lemma {:induction false} GapPartRead(b: seq<Byte>, p: nat, col: nat, s: seq<Byte>, ps: seq<Part>)
    requires TextHere(b, p, ps) && ps != [] && ps[0].Gap?
    ensures ScanText(b, p, col, s) == Meaning(s, ps, TextEnd(p, ps))
    decreases |ps|, 0
  {
    hide WellFormed, TextHere, ScanText, ScanRun, Text, Meaning, Here, LooksLikeIndicator, Folded, ItemsText,
      HasLine,
      Apart, TextEnd;
    TextStarts(b, p, ps);
    AllFit(b, p, ps);
    var items, rest := ps[0].items, ps[1..];
    var q := p + |ItemsText(items)|;
    WholeGapRead(b, p, col, s, items, rest);
    BehindLine(b, q, ColumnBehind(col, items), s + Folded(items), rest);
    MeaningBehind(s, ps, TextEnd(p, ps));
  }

  lemma WholeGapRead(b: seq<Byte>, p: nat, col: nat, s: seq<Byte>, items: seq<Item>, rest: seq<Part>)
    requires Here(b, p, ItemsText(items)) && Apart(items) && HasLine(items)
    requires TextHere(b, p + |ItemsText(items)|, rest) && Starts(rest)
    ensures ScanText(b, p, col, s) == ScanRun(b, p + |ItemsText(items)|, ColumnBehind(col, items), s + Folded(items))
    ensures items != [] && (ColumnBehind(col, items) == 0 <==> items[|items| - 1].Line?)
  {
    hide TextHere, ScanText, ScanBlanks, ScanRun, Here, Folded, NoWhite, IsBlank, IsBreak, Starts, Apart, ItemsText;
    NoWhiteStarts(b, p + |ItemsText(items)|, rest);
    FirstWhite(b, p, items);
    WhiteRead(b, p, col, s);
    GapRead(b, p, col, s, [], items);
    ColumnIsZero(col, items);
  }

  lemma FirstWhite(b: seq<Byte>, p: nat, items: seq<Item>)
    requires HasLine(items) && Here(b, p, ItemsText(items)) && Apart(items) && NoWhite(b, p + |ItemsText(items)|)
    ensures items != [] && (IsBlank(b, p) || IsBreak(b, p))
  {
    hide IsBreak, Apart, IsBlank;
    FirstItem(b, p, items);
  }

  lemma {:induction false} ContinuedRead(b: seq<Byte>, p: nat, col: nat, s: seq<Byte>, ps: seq<Part>)
    requires TextHere(b, p, ps) && ps != [] && ps[0].Continued?
    ensures ScanText(b, p, col, s) == Meaning(s, ps, TextEnd(p, ps))
    decreases |ps|, 0
  {
    hide WellFormed, TextHere, ScanText, ScanBlanks, ScanRun, Text, Meaning, Here, LooksLikeIndicator, NoWhite,
      IsBlank, IsBreak, BreakLength, Lines, ItemsText;
    TextStarts(b, p, ps);
    AllFit(b, p, ps);
    var k, items, rest := ps[0].form, ps[0].items, ps[1..];
    var q := p + 1 + |FormBytes(k)|;
    EscapedBreakRead(b, p, col, s, k, items, rest);
    ColumnIsZero(0, items);
    BehindLine(b, q + |ItemsText(items)|, ColumnBehind(0, items), s + Lines(items), rest);
    MeaningBehind(s, ps, TextEnd(p, ps));
  }

  /** A backslash and a line break: the scanner goes on as behind a first break that leaves nothing. */
  lemma EscapedBreakRead(b: seq<Byte>, p: nat, col: nat, s: seq<Byte>, k: BreakForm, items: seq<Item>, rest: seq<Part>)
    requires Here(b, p, PartText(Continued(k, items))) && Fits(Continued(k, items))
    requires TextHere(b, p + |PartText(Continued(k, items))|, rest) && Starts(rest)
    ensures var q := p + 1 + |FormBytes(k)| + |ItemsText(items)|;
            && q == p + |PartText(Continued(k, items))|
            && ScanText(b, p, col, s) == ScanRun(b, q, ColumnBehind(0, items), s + Lines(items))
  {
    hide TextHere, Text, Here, Starts, IsIndicator, NoWhite, IsBreak, IsBlank, BreakLength, ScanBlanks, ScanRun,
      ItemsText, Lines, Joined, FormBytes, Apart, LineOf, ScanText, ColumnBehind, Fits;
    var q := p + 1 + |FormBytes(k)|;
    ContinuedStarts(b, p, k, items, rest);
    BackslashGoesOn(b, p, col, s, |FormBytes(k)|);
    BreaksRead(b, q, 0, s, [], [], items);
    assert [] + Lines(items) == Lines(items);
    assert Joined(true, [], [], Lines(items)) == Lines(items) by { NothingJoined(Lines(items)); }
    if At(b, q) == QUOTE { QuoteBehind(b, q, s, items, rest); }
  }

  lemma NothingJoined(t: seq<Byte>)
    ensures Joined(true, [], [], t) == t
  {
    assert [] + t == t;
  }

  lemma BackslashGoesOn(b: seq<Byte>, p: nat, col: nat, s: seq<Byte>, n: nat)
    requires Here(b, p, [BACKSLASH]) && IsBreak(b, p + 1) && BreakLength(b, p + 1) == n
    ensures ScanText(b, p, col, s) ==
            if At(b, p + 1 + n) == QUOTE then Scanned(s, p + 1 + n + 1)
            else ScanBlanks(b, p + 1 + n, 0, s, true, [], [], [])
  {
    hide IsBreak, BreakLength, ScanBlanks;
    BackslashHere(b, p);
  }

  lemma ContinuedStarts(b: seq<Byte>, p: nat, k: BreakForm, items: seq<Item>, rest: seq<Part>)
    requires Here(b, p, PartText(Continued(k, items))) && Fits(Continued(k, items))
    requires TextHere(b, p + |PartText(Continued(k, items))|, rest) && Starts(rest)
    ensures var q := p + 1 + |FormBytes(k)|;
            && q + |ItemsText(items)| == p + |PartText(Continued(k, items))|
            && Here(b, p, [BACKSLASH]) && IsBreak(b, p + 1) && BreakLength(b, p + 1) == |FormBytes(k)|
            && Here(b, q, ItemsText(items)) && Apart(items) && NoWhite(b, q + |ItemsText(items)|)
  {
    hide TextHere, Here, Starts, NoWhite, IsBreak, IsBlank, BreakLength, Apart, LineOf, ItemsText, PartText, ItemText;
    var all := [Line(k)] + items;
    ContinuedShape(k, items);
    HereConcat(b, p, [BACKSLASH], ItemsText(all));
    NoWhiteStarts(b, p + |PartText(Continued(k, items))|, rest);
    FirstItem(b, p + 1, all);
  }

  lemma ContinuedShape(k: BreakForm, items: seq<Item>)
    ensures var all := [Line(k)] + items;
            && all[0] == Line(k) && all[1..] == items && ItemsText(all) == ItemText(all[0]) + ItemsText(items)
            && PartText(Continued(k, items)) == [BACKSLASH] + ItemsText(all) && ItemText(all[0]) == FormBytes(k)
  {
    hide FormBytes;
    var all := [Line(k)] + items;
    assert all[1..] == items;
  }

  lemma BackslashHere(b: seq<Byte>, p: nat)
    requires Here(b, p, [BACKSLASH])
    ensures At(b, p) == BACKSLASH && !IsBlankZ(b, p)
  {
    assert b[p + 0] == [BACKSLASH][0];
  }

  /** The closing quote right behind the escaped line break: the shortcut comes to the same. */
  lemma QuoteBehind(b: seq<Byte>, q: nat, s: seq<Byte>, items: seq<Item>, rest: seq<Part>)
    requires Here(b, q, ItemsText(items)) && TextHere(b, q + |ItemsText(items)|, rest) && Starts(rest)
    requires At(b, q) == QUOTE
    ensures ScanRun(b, q + |ItemsText(items)|, ColumnBehind(0, items), s + Lines(items)) == Scanned(s, q + 1)
  {
    hide ScanBlanks, TextHere;
    NoItemBeginsLike(b, q, items);
    NoWhiteStarts(b, q, rest);
    assert s + [] == s;
  }

  lemma NoItemBeginsLike(b: seq<Byte>, q: nat, items: seq<Item>)
    requires Here(b, q, ItemsText(items)) && At(b, q) == QUOTE
    ensures items == []
  {
    if items != [] { assert b[q + 0] == ItemsText(items)[0]; }
  }

  /**
   Wherever it stands, a quoted text is scanned to what it denotes and nothing behind it is touched, unless one of its
   lines begins at the margin and looks like a document indicator there.
   */
  lemma TextIsScanned(before: seq<Byte>, ps: seq<Part>, after: seq<Byte>, col: nat)
    requires WellFormed(ps)
    ensures ScanQuoted(before + ([QUOTE] + (Text(ps) + [QUOTE])) + after, |before|, col) ==
            Meaning([], ps, |before| + |Text(ps)| + 2)
  {
    hide WellFormed, ScanText, ScanRun, Text, Meaning;
    var b, p := before + ([QUOTE] + (Text(ps) + [QUOTE])) + after, |before| + 1;
    assert Here(b, p, Text(ps) + [QUOTE]);
    TextRead(b, p, col + 1, [], ps);
    RunBegins(b, p, col + 1, ps);
  }

  lemma RunBegins(b: seq<Byte>, p: nat, col: nat, ps: seq<Part>)
    requires TextHere(b, p, ps) && col >= 1
    ensures ScanRun(b, p, col, []) == ScanText(b, p, col, [])
  {
    hide WellFormed, TextHere, Text, Here, IsBreak, IsBlank;
    TextStarts(b, p, ps);
    if ps != [] {
      if ps[0].Gap? { GapIsNoNul(b, p, ps[0].items); } else { PartStarts(b, p, ps[0]); }
    }
  }

  lemma GapIsNoNul(b: seq<Byte>, p: nat, items: seq<Item>)
    requires HasLine(items) && Here(b, p, ItemsText(items))
    ensures !IsZ(b, p)
  {
    assert b[p + 0] == ItemsText(items)[0];
  }

  // ---------------------------------------------------------------- what the writer writes is such a text

  function FormOf(k: LineBreak): BreakForm {
    match k
    case CrBreak => Cr
    case LnBreak => Ln
    case CrLnBreak => CrLn
  }

  function Blanks(n: nat): (items: seq<Item>)
    ensures |items| == n && forall k :: 0 <= k < n ==> items[k] == Blank(false)
  {
    seq(n, i => Blank(false))
  }

  function PartOf(p: Piece): Part {
    match p
    case Raw(c) => Char(c)
    case Escaped(c) =>
      (match Letter(c) case Some(x) => Part.Escape(x) case None => Coded(HexDigits(c, HexLength(c))))
    case EscapedSpace => Part.Escape(SPACE)
    case Fold(k, n) => Gap([Line(FormOf(k))] + Blanks(n))
  }

  function PartsOf(ps: seq<Piece>): (r: seq<Part>)
    ensures |r| == |ps| && forall k :: 0 <= k < |ps| ==> r[k] == PartOf(ps[k])
  {
    seq(|ps|, i requires 0 <= i < |ps| => PartOf(ps[i]))
  }

  lemma DigitOf(d: nat)
    requires d < 16
    ensures Digit(HexDigit(d)) == Some(d)
  {
  }

  lemma {:induction false} DigitsDenote(v: nat, n: nat)
    ensures AllDigits(HexDigits(v, n)) && HexValue(HexDigits(v, n)) == LowDigits(v, n)
  {
    if n > 0 {
      var ds := HexDigits(v, n);
      DigitsDenote(v / 16, n - 1);
      assert ds[..n - 1] == HexDigits(v / 16, n - 1) && ds[n - 1] == HexDigit(v % 16);
      DigitOf(v % 16);
    }
  }

  /** Every escape that the writer writes denotes its code point. */
  lemma EscapeDenotes(c: CodePoint)
    ensures var p := PartOf(Escaped(c)); Fits(p) && PartText(p) == Render(Escaped(c)) && PartValue(p) == Encode(c)
  {
    hide HexDigits, HexValue, LowDigits, Encode, Digit;
    if Letter(c).Some? {
      LetterDenotes(c);
    } else {
      DigitsDenote(c, HexLength(c));
      CodePointFits(c);
    }
  }

  lemma LetterDenotes(c: CodePoint)
    requires Letter(c).Some?
    ensures Named(Letter(c).value) == Some(c)
  {
  }

  lemma {:induction false} BlanksText(n: nat)
    ensures ItemsText(Blanks(n)) == Spaces(n) && Lines(Blanks(n)) == []
  {
    if n > 0 {
      BlanksText(n - 1);
      assert Blanks(n)[1..] == Blanks(n - 1);
      assert Spaces(n) == [SPACE] + Spaces(n - 1);
    }
  }

  /** A line broken at a single space and indented denotes that space. */
  lemma FoldDenotes(k: LineBreak, n: nat)
    ensures var p := PartOf(Fold(k, n)); Fits(p) && PartText(p) == Render(Fold(k, n)) && PartValue(p) == [SPACE]
    ensures EndsLine(PartOf(Fold(k, n))) <==> n == 0
  {
    BlanksText(n);
    var items := [Line(FormOf(k))] + Blanks(n);
    assert items[0].Line? && items[1..] == Blanks(n);
    assert Apart(items);
  }

  lemma PieceIsPart(p: Piece)
    requires PieceFits(p)
    ensures Fits(PartOf(p)) && PartText(PartOf(p)) == Render(p) && PartValue(PartOf(p)) == Denote(p)
    ensures EndsLine(PartOf(p)) <==> p.Fold? && p.indent == 0
  {
    match p
    case Raw(c) =>
    case Escaped(c) => EscapeDenotes(c);
    case EscapedSpace =>
    case Fold(k, n) => FoldDenotes(k, n);
  }

  lemma AdjacentParts(p: Piece, q: Piece)
    requires PieceFits(p) && PieceFits(q) && Adjacent(p, q)
    ensures Beside(PartOf(p), PartOf(q))
  {
  }

  lemma {:induction false} PiecesAreParts(ps: seq<Piece>)
    requires Tidy(ps)
    ensures var r := PartsOf(ps);
            && WellFormed(r) && Text(r) == RenderAll(ps) && ValueOf(r) == DenoteAll(ps)
            && (HasIndicatorLine(r) <==> HasIndicator(ps))
  {
    hide PartText, PartValue, Render, Denote, Fits, EndsLine, IsIndicator, LooksLikeIndicator, PieceFits;
    var r := PartsOf(ps);
    forall k | 0 <= k < |r| ensures Fits(r[k]) { PieceIsPart(ps[k]); }
    forall k | 0 <= k < |r| - 1 ensures Beside(r[k], r[k + 1]) {
      assert Adjacent(ps[k], ps[k + 1]);
      AdjacentParts(ps[k], ps[k + 1]);
    }
    if ps != [] {
      forall k | 0 <= k < |ps| - 2 ensures Adjacent(ps[1..][k], ps[1..][k + 1]) {
        assert Adjacent(ps[k + 1], ps[k + 2]);
      }
      PieceIsPart(ps[0]);
      assert r[1..] == PartsOf(ps[1..]);
      PiecesAreParts(ps[1..]);
      IndicatorLooks(RenderAll(ps[1..]) + [QUOTE]);
    }
  }

  /** What the writer writes is read back, unless a line that it folds at the margin looks like an indicator. */
  lemma QuotedReadsBack(before: seq<Byte>, ps: seq<Piece>, after: seq<Byte>, col: nat)
    requires Tidy(ps)
    ensures ScanQuoted(before + Quoted(ps) + after, |before|, col) ==
            if HasIndicator(ps) then ScanFailed(UnexpectedDocumentIndicator)
            else Scanned(DenoteAll(ps), |before| + |Quoted(ps)|)
  {
    hide Tidy, Fits, Text, ValueOf, HasIndicatorLine, HasIndicator, ScanQuoted, RenderAll, DenoteAll;
    PiecesAreParts(ps);
    TextIsScanned(before, PartsOf(ps), after, col);
    assert [] + ValueOf(PartsOf(ps)) == ValueOf(PartsOf(ps));
  }
}
