/** Bytes, UTF-8 and the character classes of the YAML package, on bytes as the code tests them. */
module Utf8 {

  type Byte = x: int | 0 <= x < 256

  /** A Unicode scalar value. */
  type CodePoint = c: int | 0 <= c <= 0x10FFFF && !(0xD800 <= c <= 0xDFFF)

  function Encode(c: CodePoint): (bytes: seq<Byte>)
    ensures 1 <= |bytes| <= 4
  {
    if c <= 0x7F then [c]
    else if c <= 0x7FF then [0xC0 + c / 64, 0x80 + c % 64]
    else if c <= 0xFFFF then [0xE0 + c / 4096, 0x80 + c / 64 % 64, 0x80 + c % 64]
    else [0xF0 + c / 262144, 0x80 + c / 4096 % 64, 0x80 + c / 64 % 64, 0x80 + c % 64]
  }

  /** The valid UTF-8 byte sequences are the results of this function. */
  function EncodeAll(cs: seq<CodePoint>): seq<Byte> {
    if cs == [] then [] else Encode(cs[0]) + EncodeAll(cs[1..])
  }

  /** The byte at a position of a NUL-terminated buffer. */
  function At(b: seq<Byte>, i: nat): Byte {
    if i < |b| then b[i] else 0
  }

  /** The text `t` stands at position `i`. */
  ghost predicate Here(b: seq<Byte>, i: nat, t: seq<Byte>) {
    i + |t| <= |b| && forall k :: 0 <= k < |t| ==> b[i + k] == t[k]
  }

  lemma HereConcat(b: seq<Byte>, i: nat, s: seq<Byte>, t: seq<Byte>)
    ensures Here(b, i, s + t) <==> Here(b, i, s) && Here(b, i + |s|, t)
  {
    if Here(b, i, s) && Here(b, i + |s|, t) {
      forall k | 0 <= k < |s + t| ensures b[i + k] == (s + t)[k] {
        if k >= |s| { assert b[i + |s| + (k - |s|)] == t[k - |s|]; }
      }
    }
    if Here(b, i, s + t) {
      forall k | 0 <= k < |s| ensures b[i + k] == s[k] { assert (s + t)[k] == s[k]; }
      forall k | 0 <= k < |t| ensures b[i + |s| + k] == t[k] { assert b[i + (|s| + k)] == (s + t)[|s| + k]; }
    }
  }

  // ---------------------------------------------------------------- character classes

  function Width(b: Byte): nat {
    if b < 0x80 then 1
    else if 0xC0 <= b < 0xE0 then 2
    else if 0xE0 <= b < 0xF0 then 3
    else if 0xF0 <= b < 0xF8 then 4
    else 0
  }

  predicate IsAscii(b: seq<Byte>, i: nat) {
    At(b, i) <= 0x7F
  }

  predicate IsPrintable(b: seq<Byte>, i: nat) {
    var x, y, z := At(b, i), At(b, i + 1), At(b, i + 2);
    || x == 0x0A
    || 0x20 <= x <= 0x7E
    || (x == 0xC2 && y >= 0xA0)
    || 0xC2 < x < 0xED
    || (x == 0xED && y < 0xA0)
    || x == 0xEE
    || (x == 0xEF && !(y == 0xBB && z == 0xBF) && !(y == 0xBF && (z == 0xBE || z == 0xBF)))
  }

  /** Tests the start of the buffer, wherever `i` is. */
  predicate IsBom(b: seq<Byte>, i: nat) {
    At(b, 0) == 0xEF && At(b, 1) == 0xBB && At(b, 2) == 0xBF
  }

  predicate IsZ(b: seq<Byte>, i: nat) {
    At(b, i) == 0
  }

  predicate IsBlank(b: seq<Byte>, i: nat) {
    At(b, i) == 0x20 || At(b, i) == 0x09
  }

  predicate IsBreak(b: seq<Byte>, i: nat) {
    var x, y, z := At(b, i), At(b, i + 1), At(b, i + 2);
    || x == 0x0D
    || x == 0x0A
    || (x == 0xC2 && y == 0x85)
    || (x == 0xE2 && y == 0x80 && (z == 0xA8 || z == 0xA9))
  }

  predicate IsBlankZ(b: seq<Byte>, i: nat) {
    IsBlank(b, i) || IsBreak(b, i) || IsZ(b, i)
  }

  // ---------------------------------------------------------------- the same on code points

  /** The printable characters of YAML 1.1, section 5.1, without the tab, NEL and what needs four bytes. */
  predicate Printable(c: CodePoint) {
    c == 0x0A || 0x20 <= c <= 0x7E || (0xA0 <= c <= 0xFFFD && c != 0xFEFF)
  }

  predicate Break(c: CodePoint) {
    c == 0x0D || c == 0x0A || c == 0x85 || c == 0x2028 || c == 0x2029
  }

  lemma HereBytes(b: seq<Byte>, i: nat, c: CodePoint)
    requires Here(b, i, Encode(c))
    ensures At(b, i) == Encode(c)[0]
    ensures |Encode(c)| > 1 ==> At(b, i + 1) == Encode(c)[1]
    ensures |Encode(c)| > 2 ==> At(b, i + 2) == Encode(c)[2]
    ensures |Encode(c)| > 3 ==> At(b, i + 3) == Encode(c)[3]
  {
    hide Encode;
    assert b[i + 0] == Encode(c)[0];
    if |Encode(c)| > 1 { assert b[i + 1] == Encode(c)[1]; }
    if |Encode(c)| > 2 { assert b[i + 2] == Encode(c)[2]; }
    if |Encode(c)| > 3 { assert b[i + 3] == Encode(c)[3]; }
  }

  lemma WidthOfEncoding(c: CodePoint)
    ensures Width(Encode(c)[0]) == |Encode(c)|
  {
  }

  lemma PrintableHere(b: seq<Byte>, i: nat, c: CodePoint)
    requires Here(b, i, Encode(c))
    ensures IsPrintable(b, i) <==> Printable(c)
  {
    HereBytes(b, i, c);
    hide Here, At;
  }

  lemma BreakHere(b: seq<Byte>, i: nat, c: CodePoint)
    requires Here(b, i, Encode(c))
    ensures IsBreak(b, i) <==> Break(c)
    ensures IsBlank(b, i) <==> c == 0x20 || c == 0x09
    ensures IsZ(b, i) <==> c == 0
    ensures IsAscii(b, i) <==> c <= 0x7F
  {
    HereBytes(b, i, c);
    hide Here, At;
  }

  /** The first byte of a longer encoding is no ASCII character. */
  lemma FirstByte(c: CodePoint)
    ensures c <= 0x7F ==> Encode(c)[0] == c
    ensures c > 0x7F ==> Encode(c)[0] >= 0xC0
  {
  }
}
