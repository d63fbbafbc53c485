/**
 * Character classification and UTF-16 surrogate arithmetic used by the scanner.
 * The scanner works on code points; while a surrogate pair is being decoded its
 * string buffer briefly holds a lone UTF-16 code unit, so characters are plain
 * naturals rather than Dafny `char`s (which exclude the surrogate range).
 */
module Chars {

  type CodePoint = nat

  /** The end-of-input sentinel fed after the last real character. */
  const NUL: CodePoint := 0

  /** A Dafny string literal as a sequence of code points. */
  function Text(s: string): seq<CodePoint>
  {
    seq(|s|, i requires 0 <= i < |s| => s[i] as nat)
  }

  predicate IsDigit(ch: CodePoint)
  {
    '0' as nat <= ch <= '9' as nat
  }

  predicate IsAlpha(ch: CodePoint)
  {
    ('a' as nat <= ch <= 'z' as nat) || ('A' as nat <= ch <= 'Z' as nat)
  }

  predicate IsXDigit(ch: CodePoint)
  {
    IsDigit(ch) || ('a' as nat <= ch <= 'f' as nat) || ('A' as nat <= ch <= 'F' as nat)
  }

  /** A hexadecimal digit as the scanner buffers it: a digit or a lower-case letter a..f. */
  predicate IsLowerXDigit(ch: CodePoint)
  {
    IsDigit(ch) || ('a' as nat <= ch <= 'f' as nat)
  }

  function ToLower(ch: CodePoint): (r: CodePoint)
    ensures IsXDigit(ch) ==> IsLowerXDigit(r)
    ensures 'A' as nat <= ch <= 'Z' as nat ==> r == ch - 'A' as nat + 'a' as nat
    ensures !('A' as nat <= ch <= 'Z' as nat) ==> r == ch
  {
    if 'A' as nat <= ch <= 'Z' as nat then ch + 32 else ch
  }

  function HexDigitValue(ch: CodePoint): (v: nat)
    requires IsLowerXDigit(ch)
    ensures v < 16
  {
    if IsDigit(ch) then ch - '0' as nat else ch - 'a' as nat + 10
  }

  function Pow16(n: nat): (r: nat)
    ensures r >= 1
  {
    if n == 0 then 1 else 16 * Pow16(n - 1)
  }

  /** The value of a buffer of lower-case hexadecimal digits, most significant first (strtol base 16). */
  function HexValue(hex: seq<CodePoint>): (v: nat)
    requires forall i :: 0 <= i < |hex| ==> IsLowerXDigit(hex[i])
    ensures v < Pow16(|hex|)
  {
    if hex == [] then 0
    else HexValue(hex[..|hex| - 1]) * 16 + HexDigitValue(hex[|hex| - 1])
  }

  // UTF-16 surrogates, section 2.2 of RFC 2781.

  predicate IsSurrogateHigh(u: nat)
  {
    0xD800 <= u <= 0xDBFF
  }

  predicate IsSurrogateLow(u: nat)
  {
    0xDC00 <= u <= 0xDFFF
  }

  /** The code point a high/low surrogate pair stands for (decoding, RFC 2781 section 2.2). */
  function AssembleSurrogate(hi: nat, lo: nat): (cp: CodePoint)
    requires IsSurrogateHigh(hi) && IsSurrogateLow(lo)
    ensures 0x10000 <= cp <= 0x10FFFF
  {
    0x10000 + (hi - 0xD800) * 0x400 + (lo - 0xDC00)
  }

  /** The surrogate pair that encodes a supplementary code point (encoding, RFC 2781 section 2.1). */
  function SplitSurrogate(cp: CodePoint): (units: (nat, nat))
    requires 0x10000 <= cp <= 0x10FFFF
    ensures IsSurrogateHigh(units.0) && IsSurrogateLow(units.1)
  {
    var u := cp - 0x10000;
    (0xD800 + u / 0x400, 0xDC00 + u % 0x400)
  }

  /** Decoding undoes encoding. */
  lemma SplitThenAssemble(cp: CodePoint)
    requires 0x10000 <= cp <= 0x10FFFF
    ensures AssembleSurrogate(SplitSurrogate(cp).0, SplitSurrogate(cp).1) == cp
  {
  }

  /** Encoding undoes decoding: every pair denotes a distinct code point. */
  lemma AssembleThenSplit(hi: nat, lo: nat)
    requires IsSurrogateHigh(hi) && IsSurrogateLow(lo)
    ensures SplitSurrogate(AssembleSurrogate(hi, lo)) == (hi, lo)
  {
  }
}
