/**
 Double-quoted scalars: the pieces that a writer may write for a value, and the scanner for quoted text as a
 specification.
 */
module QuotedScalar {
  import opened Common
  import opened Utf8

  const QUOTE: Byte := 0x22
  const BACKSLASH: Byte := 0x5C
  const SPACE: Byte := 0x20

  // ---------------------------------------------------------------- pieces

  datatype LineBreak = CrBreak | LnBreak | CrLnBreak

  datatype Piece = Raw(c: CodePoint) | Escaped(c: CodePoint) | EscapedSpace | Fold(lineBreak: LineBreak, indent: nat)

  function BreakBytes(k: LineBreak): seq<Byte> {
    match k
    case CrBreak => [0x0D]
    case LnBreak => [0x0A]
    case CrLnBreak => [0x0D, 0x0A]
  }

  function Spaces(n: nat): (s: seq<Byte>)
    ensures |s| == n && forall k :: 0 <= k < n ==> s[k] == SPACE
  {
    seq(n, k => SPACE)
  }

  /** The one-letter escapes of YAML 1.1, section 5.6. */
  function Letter(c: CodePoint): Option<Byte> {
    if c == 0x00 then Some(0x30)
    else if c == 0x07 then Some(0x61)
    else if c == 0x08 then Some(0x62)
    else if c == 0x09 then Some(0x74)
    else if c == 0x0A then Some(0x6E)
    else if c == 0x0B then Some(0x76)
    else if c == 0x0C then Some(0x66)
    else if c == 0x0D then Some(0x72)
    else if c == 0x1B then Some(0x65)
    else if c == 0x22 then Some(0x22)
    else if c == 0x5C then Some(0x5C)
    else if c == 0x85 then Some(0x4E)
    else if c == 0xA0 then Some(0x5F)
    else if c == 0x2028 then Some(0x4C)
    else if c == 0x2029 then Some(0x50)
    else None
  }

  function HexDigit(d: nat): Byte
    requires d < 16
  {
    if d < 10 then 0x30 + d else 0x41 + d - 10
  }

  /** The last `n` hexadecimal digits. */
  function HexDigits(v: nat, n: nat): (s: seq<Byte>)
    ensures |s| == n
  {
    if n == 0 then [] else HexDigits(v / 16, n - 1) + [HexDigit(v % 16)]
  }

  /** How many digits, and the letter that says so. */
  function HexLength(c: CodePoint): (n: nat)
    ensures n == 2 || n == 4 || n == 8
  {
    if c <= 0xFF then 2 else if c <= 0xFFFF then 4 else 8
  }

  function HexLetter(c: CodePoint): Byte {
    if c <= 0xFF then 0x78 else if c <= 0xFFFF then 0x75 else 0x55
  }

  function RenderEscape(c: CodePoint): seq<Byte> {
    [BACKSLASH] + (match Letter(c) case Some(x) => [x] case None => [HexLetter(c)] + HexDigits(c, HexLength(c)))
  }

  function Render(p: Piece): seq<Byte> {
    match p
    case Raw(c) => Encode(c)
    case Escaped(c) => RenderEscape(c)
    case EscapedSpace => [BACKSLASH, SPACE]
    case Fold(k, n) => BreakBytes(k) + Spaces(n)
  }

  function Denote(p: Piece): seq<Byte> {
    match p
    case Raw(c) => Encode(c)
    case Escaped(c) => Encode(c)
    case EscapedSpace => [SPACE]
    case Fold(_, _) => [SPACE]
  }

  function RenderAll(ps: seq<Piece>): seq<Byte> {
    if ps == [] then [] else Render(ps[0]) + RenderAll(ps[1..])
  }

  function DenoteAll(ps: seq<Piece>): seq<Byte> {
    if ps == [] then [] else Denote(ps[0]) + DenoteAll(ps[1..])
  }

  predicate IsSpacePiece(p: Piece) {
    p == Raw(0x20)
  }

  /** A raw character is printable and stands for itself. */
  predicate PieceFits(p: Piece) {
    p.Raw? ==> Printable(p.c) && !Break(p.c) && p.c != 0x22 && p.c != 0x5C
  }

  /** No fold stands next to a raw space or another fold. */
  predicate Adjacent(p: Piece, q: Piece) {
    (p.Fold? ==> !q.Fold? && !IsSpacePiece(q)) && (IsSpacePiece(p) ==> !q.Fold?)
  }

  predicate Tidy(ps: seq<Piece>) {
    && (forall k :: 0 <= k < |ps| ==> PieceFits(ps[k]))
    && (forall k :: 0 <= k < |ps| - 1 ==> Adjacent(ps[k], ps[k + 1]))
  }

  // ---------------------------------------------------------------- the scanner

  datatype Failure =
    | UnexpectedDocumentIndicator | UnexpectedEnd | UnknownEscape | NotHexadecimal | InvalidCodePoint
    | InvalidCharacter   // not UTF-8: the code panics

  datatype Scan = Scanned(value: seq<Byte>, end: nat) | ScanFailed(failure: Failure)

  predicate IsHex(x: Byte) {
    0x30 <= x <= 0x39 || 0x41 <= x <= 0x46 || 0x61 <= x <= 0x66
  }

  function AsHex(x: Byte): (v: nat)
    requires IsHex(x)
    ensures v < 16
  {
    if 0x41 <= x <= 0x46 then x - 0x41 + 10
    else if 0x61 <= x <= 0x66 then x - 0x61 + 10
    else x - 0x30
  }

  /** The value of `n` hexadecimal digits at `p`, if they are there. */
  function ReadHex(b: seq<Byte>, p: nat, n: nat): Option<nat> {
    if n == 0 then Some(0)
    else match ReadHex(b, p, n - 1)
      case None => None
      case Some(v) => if IsHex(At(b, p + n - 1)) then Some(v * 16 + AsHex(At(b, p + n - 1))) else None
  }

  datatype Escape = Escape(bytes: seq<Byte>, length: nat) | BadEscape(failure: Failure)

  function EscapeLetter(x: Byte): Option<seq<Byte>> {
    if x == 0x30 then Some([0x00])
    else if x == 0x61 then Some([0x07])
    else if x == 0x62 then Some([0x08])
    else if x == 0x74 || x == 0x09 then Some([0x09])
    else if x == 0x6E then Some([0x0A])
    else if x == 0x76 then Some([0x0B])
    else if x == 0x66 then Some([0x0C])
    else if x == 0x72 then Some([0x0D])
    else if x == 0x65 then Some([0x1B])
    else if x == 0x20 then Some([0x20])
    else if x == 0x22 then Some([0x22])
    else if x == 0x27 then Some([0x27])
    else if x == 0x5C then Some([0x5C])
    else if x == 0x4E then Some([0xC2, 0x85])
    else if x == 0x5F then Some([0xC2, 0xA0])
    else if x == 0x4C then Some([0xE2, 0x80, 0xA8])
    else if x == 0x50 then Some([0xE2, 0x80, 0xA9])
    else None
  }

  function CodeLength(x: Byte): nat {
    if x == 0x78 then 2 else if x == 0x75 then 4 else if x == 0x55 then 8 else 0
  }

  /** The escape whose backslash is at `p`. */
  function ReadEscape(b: seq<Byte>, p: nat): (e: Escape)
    ensures e.Escape? ==> e.length >= 2
  {
    var x := At(b, p + 1);
    match EscapeLetter(x)
    case Some(bytes) => Escape(bytes, 2)
    case None =>
      if CodeLength(x) == 0 then BadEscape(UnknownEscape)
      else match ReadHex(b, p + 2, CodeLength(x))
        case None => BadEscape(NotHexadecimal)
        case Some(v) =>
          if 0xD800 <= v <= 0xDFFF || v > 0x10FFFF then BadEscape(InvalidCodePoint)
          else Escape(Encode(v), 2 + CodeLength(x))
  }

  predicate IsCrLf(b: seq<Byte>, p: nat) {
    At(b, p) == 0x0D && At(b, p + 1) == 0x0A
  }

  function BreakLength(b: seq<Byte>, p: nat): (n: nat)
    requires IsBreak(b, p)
    ensures n >= 1
  {
    if IsCrLf(b, p) then 2 else Width(At(b, p))
  }

  /** What a line break is read as: LF, except that LS and PS stay. */
  function LineOf(b: seq<Byte>, p: nat): seq<Byte>
    requires IsBreak(b, p)
  {
    if At(b, p) == 0xE2 then [At(b, p), At(b, p + 1), At(b, p + 2)] else [0x0A]
  }

  predicate IsIndicator(b: seq<Byte>, p: nat) {
    && ((At(b, p) == 0x2D && At(b, p + 1) == 0x2D && At(b, p + 2) == 0x2D)
        || (At(b, p) == 0x2E && At(b, p + 1) == 0x2E && At(b, p + 2) == 0x2E))
    && IsBlankZ(b, p + 3)
  }

  function Left(b: seq<Byte>, p: nat): nat {
    if p < |b| then |b| - p else 0
  }

  function Bytes(b: seq<Byte>, p: nat, n: nat): seq<Byte> {
    if n == 0 then [] else Bytes(b, p, n - 1) + [At(b, p + n - 1)]
  }

  /** The beginning of the outer loop: a new run of text at `p`, in column `col`. */
  function ScanRun(b: seq<Byte>, p: nat, col: nat, s: seq<Byte>): Scan
    decreases Left(b, p), if IsBlank(b, p) || IsBreak(b, p) then 4 else 1
  {
    if col == 0 && IsIndicator(b, p) then ScanFailed(UnexpectedDocumentIndicator)
    else if IsZ(b, p) then ScanFailed(UnexpectedEnd)
    else ScanText(b, p, col, s)
  }

  /** The loop over non-blank characters. */
  function ScanText(b: seq<Byte>, p: nat, col: nat, s: seq<Byte>): Scan
    decreases Left(b, p), if IsBlankZ(b, p) then 3 else 0
  {
    if IsBlankZ(b, p) then ScanBlanks(b, p, col, s, false, [], [], [])
    else if At(b, p) == QUOTE then Scanned(s, p + 1)
    else if At(b, p) == BACKSLASH then
      if IsBreak(b, p + 1) then
        var q := p + 1 + BreakLength(b, p + 1);
        if At(b, q) == QUOTE then Scanned(s, q + 1) else ScanBlanks(b, q, 0, s, true, [], [], [])
      else match ReadEscape(b, p)
        case BadEscape(f) => ScanFailed(f)
        case Escape(bytes, n) => ScanText(b, p + n, col + n, s + bytes)
    else
      var w := Width(At(b, p));
      if w == 0 then ScanFailed(InvalidCharacter) else ScanText(b, p + w, col + 1, s + Bytes(b, p, w))
  }

  /** The loop over blanks and line breaks, and what they are joined to. */
  function ScanBlanks(b: seq<Byte>, p: nat, col: nat, s: seq<Byte>,
                      leading: bool, whites: seq<Byte>, first: seq<Byte>, rest: seq<Byte>): Scan
    decreases Left(b, p), 2
  {
    if IsBlank(b, p) then
      ScanBlanks(b, p + 1, col + 1, s, leading, if leading then whites else whites + [At(b, p)], first, rest)
    else if IsBreak(b, p) then
      var q := p + BreakLength(b, p);
      if leading then ScanBlanks(b, q, 0, s, true, whites, first, rest + LineOf(b, p))
      else ScanBlanks(b, q, 0, s, true, [], first + LineOf(b, p), rest)
    else ScanRun(b, p, col, s + Joined(leading, whites, first, rest))
  }

  function Joined(leading: bool, whites: seq<Byte>, first: seq<Byte>, rest: seq<Byte>): seq<Byte> {
    if !leading then whites
    else if first != [] && first[0] == 0x0A then (if rest == [] then [SPACE] else rest)
    else first + rest
  }

  /** Scanning from the opening quote at `p`. */
  function ScanQuoted(b: seq<Byte>, p: nat, col: nat): Scan {
    ScanRun(b, p + 1, col + 1, [])
  }

  // ---------------------------------------------------------------- indicators at the margin

  /** A line folded without indentation begins like a document indicator. */
  predicate IndicatorBehind(p: Piece, rest: seq<Piece>) {
    p.Fold? && p.indent == 0 && IsIndicator(RenderAll(rest) + [QUOTE], 0)
  }

  /** Some line does. */
  predicate HasIndicator(ps: seq<Piece>) {
    ps != [] && (IndicatorBehind(ps[0], ps[1..]) || HasIndicator(ps[1..]))
  }

  /** Whether an indicator stands in a text does not depend on what follows the text's closing quote. */
  lemma IndicatorHere(b: seq<Byte>, q: nat, text: seq<Byte>)
    requires Here(b, q, text) && text != [] && text[|text| - 1] == QUOTE
    ensures IsIndicator(b, q) <==> IsIndicator(text, 0)
  {
    forall k: nat | k < |text| ensures At(b, q + k) == At(text, k) {
      assert b[q + k] == text[k];
    }
    if |text| >= 4 { BlankHere(b, q, text, 3); }
  }

  lemma BlankHere(b: seq<Byte>, q: nat, text: seq<Byte>, k: nat)
    requires k < |text| && text[|text| - 1] == QUOTE && forall j: nat :: j < |text| ==> At(b, q + j) == At(text, j)
    ensures IsBlankZ(b, q + k) <==> IsBlankZ(text, k)
  {
    assert At(b, q + k) == At(text, k);
    if k + 1 < |text| { assert At(b, q + (k + 1)) == At(text, k + 1); }
    if k + 2 < |text| { assert At(b, q + (k + 2)) == At(text, k + 2); }
  }

  // ---------------------------------------------------------------- digits of a code point

  /** What `n` hexadecimal digits keep of a number. */
  function LowDigits(v: nat, n: nat): nat {
    if n == 0 then 0 else LowDigits(v / 16, n - 1) * 16 + v % 16
  }

  lemma CodePointFits(c: CodePoint)
    ensures LowDigits(c, HexLength(c)) == c
  {
    if c <= 0xFF {
      assert LowDigits(c / 16, 1) == c / 16;
    } else if c <= 0xFFFF {
      FourDigits(c);
    } else {
      FourDigits(c / 16 / 16 / 16 / 16);
      var d := c / 16 / 16 / 16 / 16;
      assert LowDigits(c / 16 / 16 / 16, 5) == LowDigits(d, 4) * 16 + c / 16 / 16 / 16 % 16;
      assert LowDigits(c / 16 / 16, 6) == LowDigits(c / 16 / 16 / 16, 5) * 16 + c / 16 / 16 % 16;
      assert LowDigits(c / 16, 7) == LowDigits(c / 16 / 16, 6) * 16 + c / 16 % 16;
    }
  }

  lemma FourDigits(v: nat)
    requires v <= 0xFFFF
    ensures LowDigits(v, 4) == v
  {
    assert LowDigits(v / 16 / 16 / 16, 1) == v / 16 / 16 / 16;
    assert LowDigits(v / 16 / 16, 2) == v / 16 / 16;
    assert LowDigits(v / 16, 3) == v / 16;
  }

  // ---------------------------------------------------------------- lines at the margin

  /** A quoted text: the quotes and the pieces between them. */
  function Quoted(ps: seq<Piece>): seq<Byte> {
    [QUOTE] + (RenderAll(ps) + [QUOTE])
  }

  /** With an indentation, or without folds, there is no line at the margin. */
  lemma {:induction false} NothingAtTheMargin(ps: seq<Piece>)
    requires forall k :: 0 <= k < |ps| && ps[k].Fold? ==> ps[k].indent > 0
    ensures !HasIndicator(ps)
  {
    if ps != [] { NothingAtTheMargin(ps[1..]); }
  }

  /** "a --- b", folded at both spaces without indentation. */
  const FoldedTail: seq<Piece> :=
    [Raw(0x2D)] + ([Raw(0x2D)] + ([Raw(0x2D)] + ([Fold(LnBreak, 0)] + ([Raw(0x62)] + []))))
  const FoldedDashes: seq<Piece> := [Raw(0x61)] + ([Fold(LnBreak, 0)] + FoldedTail)

  lemma DashesAtTheMargin()
    ensures HasIndicator(FoldedDashes)
  {
    hide IsIndicator, RenderAll;
    var behind := [Fold(LnBreak, 0)] + FoldedTail;
    assert FoldedDashes[1..] == behind && behind[1..] == FoldedTail && behind[0] == Fold(LnBreak, 0);
    DashesAreIndicator();
    assert IndicatorBehind(behind[0], behind[1..]);
    assert HasIndicator(behind);
  }

  lemma DashesAreIndicator()
    ensures IsIndicator(RenderAll(FoldedTail) + [QUOTE], 0)
  {
    RenderFirst(Raw(0x62), []);
    RenderFirst(Fold(LnBreak, 0), [Raw(0x62)] + []);
    RenderFirst(Raw(0x2D), [Fold(LnBreak, 0)] + ([Raw(0x62)] + []));
    RenderFirst(Raw(0x2D), [Raw(0x2D)] + ([Fold(LnBreak, 0)] + ([Raw(0x62)] + [])));
    RenderFirst(Raw(0x2D), [Raw(0x2D)] + ([Raw(0x2D)] + ([Fold(LnBreak, 0)] + ([Raw(0x62)] + []))));
    var t := RenderAll(FoldedTail) + [QUOTE];
    assert Encode(0x2D) == [0x2D] && BreakBytes(LnBreak) + Spaces(0) == [0x0A];
    assert t[0] == t[1] == t[2] == 0x2D && t[3] == 0x0A;
  }

  lemma RenderFirst(p: Piece, rest: seq<Piece>)
    ensures RenderAll([p] + rest) == Render(p) + RenderAll(rest)
  {
    assert ([p] + rest)[1..] == rest;
  }
}
