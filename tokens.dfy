/** Lexical tokens: a kind with its payload, and the source range it was read from. */
module Tokens {
  import opened Chars
  import opened Decimals

  /** A source position: the 1-based index of a character in the stream fed to the scanner. */
  type Pos = nat

  datatype TokenKind =
    | End                          // end of input, produced for the NUL sentinel
    | Single(c: CodePoint)         // one of [ ] { } , :
    | Nil
    | Bool(b: bool)
    | Int(i: int)
    | Float(f: NormDecimal)        // the exact decimal value the source rounds to a double
    | Str(s: seq<CodePoint>)
    | Comment(text: seq<CodePoint>)

  datatype Token = Token(kind: TokenKind, start: Pos, end: Pos)

  /** The token's type tag; a single-character token's tag is its character. */
  datatype TokenType = END | SINGLE(c: CodePoint) | NIL | BOOL | INT | FLOAT | STRING | COMMENT

  function TypeOf(k: TokenKind): TokenType
  {
    match k
    case End => END
    case Single(c) => SINGLE(c)
    case Nil => NIL
    case Bool(_) => BOOL
    case Int(_) => INT
    case Float(_) => FLOAT
    case Str(_) => STRING
    case Comment(_) => COMMENT
  }

  /** Kinds that carry nothing beyond their type tag. */
  predicate Payloadless(k: TokenKind)
  {
    k.End? || k.Single? || k.Nil?
  }

  /**
   * Token::operator== of the base class: tokens are equal when their types are,
   * whatever their positions; the base class does not look at payloads.
   */
  function Equals(a: Token, b: Token): (r: bool)
    ensures a.kind == b.kind ==> r
    ensures Payloadless(a.kind) ==> (r <==> a.kind == b.kind)
    ensures r ==> Payloadless(a.kind) == Payloadless(b.kind)
    ensures r ==> a.kind.Bool? == b.kind.Bool? && a.kind.Int? == b.kind.Int? && a.kind.Float? == b.kind.Float?
                  && a.kind.Str? == b.kind.Str? && a.kind.Comment? == b.kind.Comment?
    ensures ((a.kind.Bool? && b.kind.Bool?) || (a.kind.Int? && b.kind.Int?) || (a.kind.Float? && b.kind.Float?) ||
             (a.kind.Str? && b.kind.Str?) || (a.kind.Comment? && b.kind.Comment?)) ==> r
  {
    TypeOf(a.kind) == TypeOf(b.kind)
  }

  /** Token::operator!=: tokens differ only when their kinds do, and only in their type tag. */
  function NotEquals(a: Token, b: Token): (r: bool)
    ensures r <==> !Equals(a, b)
    ensures r ==> a.kind != b.kind
    ensures Payloadless(a.kind) ==> (r <==> a.kind != b.kind)
    ensures r ==> !(a.kind.Bool? && b.kind.Bool?) && !(a.kind.Int? && b.kind.Int?) && !(a.kind.Float? && b.kind.Float?)
                  && !(a.kind.Str? && b.kind.Str?) && !(a.kind.Comment? && b.kind.Comment?)
  {
    !Equals(a, b)
  }

  /** Equality of tokens is an equivalence relation. */
  lemma EqualsIsEquivalence(a: Token, b: Token, c: Token)
    ensures Equals(a, a)
    ensures Equals(a, b) ==> Equals(b, a)
    ensures Equals(a, b) && Equals(b, c) ==> Equals(a, c)
  {
  }

  /** Two integer tokens with different values and positions still compare equal under the base operator. */
  lemma EqualsIgnoresPayload()
    ensures Equals(Token(Int(1), 1, 1), Token(Int(2), 5, 7))
  {
  }
}
