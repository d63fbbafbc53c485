/**
 * The parser's state: a stack of grammar states and a stack of partly built nodes, and the
 * one transition whose body the header gives, handle_simple_token.
 */
module ParserImpl {
  import opened Wrappers
  import opened Tokens
  import opened Nodes

  datatype ParserState = JSON | JSON_END | STRING | LIST | LIST_END | PAIR | PAIR_END | OBJECT | OBJECT_END

  /** The leaf node a payload-carrying token becomes; NIL and punctuation tokens are not built this way. */
  function LeafOf(k: TokenKind): (r: Option<Node>)
    ensures r.Some? <==> k.Bool? || k.Int? || k.Float? || k.Str?
    ensures k.Bool? ==> r == Some(NodeBool(k.b))
    ensures k.Int? ==> r == Some(NodeInt(k.i))
    ensures k.Float? ==> r == Some(NodeFloat(k.f))
    ensures k.Str? ==> r == Some(NodeString(k.s))
  {
    match k
    case Bool(b) => Some(NodeBool(b))
    case Int(i) => Some(NodeInt(i))
    case Float(f) => Some(NodeFloat(f))
    case Str(s) => Some(NodeString(s))
    case _ => None
  }

  /** The token a leaf node is read from. */
  function TokenOfLeaf(n: Node): Option<TokenKind>
  {
    match n
    case NodeBool(b) => Some(Bool(b))
    case NodeInt(i) => Some(Int(i))
    case NodeFloat(f) => Some(Float(f))
    case NodeString(s) => Some(Str(s))
    case _ => None
  }

  /** The leaf keeps the token's payload: reading it back gives the token kind, and its tag matches. */
  lemma LeafRoundTrip(k: TokenKind)
    ensures LeafOf(k).Some? ==> TokenOfLeaf(LeafOf(k).value) == Some(k)
    ensures k.Bool? ==> Type(LeafOf(k).value) == NodeType.BOOL
    ensures k.Int? ==> Type(LeafOf(k).value) == NodeType.INT
    ensures k.Float? ==> Type(LeafOf(k).value) == NodeType.FLOAT
    ensures k.Str? ==> Type(LeafOf(k).value) == NodeType.STRING
  {
  }

  lemma LeafOfInverse(n: Node)
    ensures TokenOfLeaf(n).Some? ==> LeafOf(TokenOfLeaf(n).value) == Some(n)
  {
  }

  class Parser {
    var states: seq<ParserState>
    var nodes: seq<Node>

    /**
     * Parser::handle_simple_token: build the leaf node from the token's payload, push it on
     * the node stack and pop the grammar state that expected it.
     */
    method HandleSimpleToken(tok: Token)
      requires states != [] && LeafOf(tok.kind).Some?
      modifies this
      ensures nodes == old(nodes) + [LeafOf(tok.kind).value]
      ensures states == old(states)[..|old(states)| - 1]
    {
      var node := LeafOf(tok.kind).value;
      nodes := nodes + [node];
      states := states[..|states| - 1];
    }
  }
}
