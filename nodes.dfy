/**
 * The document tree: a closed variant of eight node kinds. A PAIR's key is held as the
 * string payload of its NodeString key, and an OBJECT holds its pairs, so the shape
 * constraints of the source's member types hold by construction; `Children` exposes them
 * as nodes again.
 */
module Nodes {
  import opened Wrappers
  import opened Chars
  import opened Decimals

  datatype NodeType = NIL | BOOL | INT | FLOAT | STRING | LIST | PAIR | OBJECT

  datatype Node =
    | NodeNull
    | NodeBool(b: bool)
    | NodeInt(i: int)
    | NodeFloat(f: NormDecimal)
    | NodeString(s: seq<CodePoint>)
    | NodeList(items: seq<Node>)
    | NodePair(key: seq<CodePoint>, value: Node)
    | NodeObject(pairs: seq<Member>)

  /** One element of NodeObject::pairs. */
  datatype Member = Member(key: seq<CodePoint>, value: Node)

  /** Node::type, the tag each constructor fixes. */
  function Type(n: Node): (t: NodeType)
    ensures t == NIL <==> n.NodeNull?
    ensures t == BOOL <==> n.NodeBool?
    ensures t == INT <==> n.NodeInt?
    ensures t == FLOAT <==> n.NodeFloat?
    ensures t == STRING <==> n.NodeString?
    ensures t == LIST <==> n.NodeList?
    ensures t == PAIR <==> n.NodePair?
    ensures t == OBJECT <==> n.NodeObject?
  {
    match n
    case NodeNull => NIL
    case NodeBool(_) => BOOL
    case NodeInt(_) => INT
    case NodeFloat(_) => FLOAT
    case NodeString(_) => STRING
    case NodeList(_) => LIST
    case NodePair(_, _) => PAIR
    case NodeObject(_) => OBJECT
  }

  /** The sub-nodes of a node, in order: a pair's key node then its value, an object's pair nodes. */
  function Children(n: Node): (c: seq<Node>)
    ensures n.NodeList? ==> c == n.items
    ensures n.NodePair? ==> |c| == 2 && Type(c[0]) == STRING && c[0].s == n.key && c[1] == n.value
    ensures n.NodeObject? ==> |c| == |n.pairs|
    ensures n.NodeObject? ==>
      forall i :: 0 <= i < |c| ==> Type(c[i]) == PAIR && c[i].key == n.pairs[i].key && c[i].value == n.pairs[i].value
    ensures !(n.NodeList? || n.NodePair? || n.NodeObject?) ==> c == []
  {
    match n
    case NodeList(items) => items
    case NodePair(k, v) => [NodeString(k), v]
    case NodeObject(ps) => seq(|ps|, i requires 0 <= i < |ps| => NodePair(ps[i].key, ps[i].value))
    case _ => []
  }

  /**
   * Node::operator==. A simple node equals only a node of its own variant carrying an equal
   * value; a composite equals a node of its own variant with equal children, in order.
   */
  function Equal(a: Node, b: Node): (r: bool)
    ensures r ==> Type(a) == Type(b)
  {
    match a
    case NodeNull => b.NodeNull?
    case NodeBool(x) => b.NodeBool? && b.b == x
    case NodeInt(x) => b.NodeInt? && b.i == x
    case NodeFloat(x) => b.NodeFloat? && b.f == x
    case NodeString(x) => b.NodeString? && b.s == x
    case NodeList(xs) =>
      b.NodeList? && |xs| == |b.items| && forall i :: 0 <= i < |xs| ==> Equal(xs[i], b.items[i])
    case NodePair(k, v) => b.NodePair? && b.key == k && Equal(v, b.value)
    case NodeObject(ps) =>
      b.NodeObject? && |ps| == |b.pairs| &&
      forall i :: 0 <= i < |ps| ==> ps[i].key == b.pairs[i].key && Equal(ps[i].value, b.pairs[i].value)
  }

  /** Node::operator!=: two nodes differ exactly when the trees are not identical. */
  function NotEqual(a: Node, b: Node): (r: bool)
    ensures r <==> !Equal(a, b)
    ensures r <==> a != b
  {
    EqualIsIdentity(a, b);
    !Equal(a, b)
  }

  /** Equality is the structural identity of trees. */
  lemma {:induction false} EqualIsIdentity(a: Node, b: Node)
    ensures Equal(a, b) <==> a == b
    decreases a
  {
    match a
    case NodeList(xs) =>
      if b.NodeList? && |xs| == |b.items| {
        forall i | 0 <= i < |xs|
          ensures Equal(xs[i], b.items[i]) <==> xs[i] == b.items[i]
        {
          EqualIsIdentity(xs[i], b.items[i]);
        }
        if Equal(a, b) {
          assert xs == b.items;
        }
      }
    case NodePair(k, v) =>
      if b.NodePair? {
        EqualIsIdentity(v, b.value);
      }
    case NodeObject(ps) =>
      if b.NodeObject? && |ps| == |b.pairs| {
        forall i | 0 <= i < |ps|
          ensures Equal(ps[i].value, b.pairs[i].value) <==> ps[i].value == b.pairs[i].value
        {
          EqualIsIdentity(ps[i].value, b.pairs[i].value);
        }
        if Equal(a, b) {
          assert forall i :: 0 <= i < |ps| ==> ps[i] == b.pairs[i];
          assert ps == b.pairs;
        }
      }
    case _ =>
  }

  /**
   * Float nodes compare by the number they hold: two FLOAT payloads that denote the same
   * number, however the literal was written, make equal nodes.
   */
  lemma FloatEqualByValue(a: NormDecimal, b: NormDecimal)
    requires a.exponent <= b.exponent && a.mantissa == b.mantissa * Pow10(b.exponent - a.exponent)
    ensures Equal(NodeFloat(a), NodeFloat(b))
  {
    SameValueSameDecimal(a, b);
  }

  /** Nodes of different variants are never equal. */
  lemma EqualSameType(a: Node, b: Node)
    ensures Equal(a, b) ==> Type(a) == Type(b)
  {
  }

  /** Node::clone: a deep copy. */
  function Clone(n: Node): (r: Node)
    ensures r == n
  {
    match n
    case NodeNull => NodeNull
    case NodeBool(x) => NodeBool(x)
    case NodeInt(x) => NodeInt(x)
    case NodeFloat(x) => NodeFloat(x)
    case NodeString(x) => NodeString(x)
    case NodeList(xs) => NodeList(CloneAll(xs))
    case NodePair(k, v) => NodePair(k, Clone(v))
    case NodeObject(ps) => NodeObject(CloneMembers(ps))
  }

  function CloneAll(xs: seq<Node>): (r: seq<Node>)
    ensures r == xs
  {
    if xs == [] then [] else CloneAll(xs[..|xs| - 1]) + [Clone(xs[|xs| - 1])]
  }

  function CloneMembers(ps: seq<Member>): (r: seq<Member>)
    ensures r == ps
  {
    if ps == [] then [] else CloneMembers(ps[..|ps| - 1]) + [Member(ps[|ps| - 1].key, Clone(ps[|ps| - 1].value))]
  }

  /** A clone equals its original under Node::operator== and keeps its tag. */
  lemma CloneEqual(n: Node)
    ensures Equal(Clone(n), n) && Type(Clone(n)) == Type(n)
  {
    EqualIsIdentity(Clone(n), n);
  }

  /** clone_node: clone, then down-cast to the class of tag `t`; the cast fails on any other tag. */
  function CloneNode(t: NodeType, n: Node): (r: Option<Node>)
    ensures r.Some? <==> Type(n) == t
    ensures r.Some? ==> r.value == n
  {
    var c := Clone(n);
    if Type(c) == t then Some(c) else None
  }

  /** SimpleNode::repr: four spaces per indentation level, then the value's own representation. */
  function SimpleRepr(indent: nat, valueRepr: string): (r: string)
    ensures |r| == 4 * indent + |valueRepr|
    ensures forall i :: 0 <= i < 4 * indent ==> r[i] == ' '
    ensures r[4 * indent..] == valueRepr
  {
    seq(4 * indent, _ => ' ') + valueRepr
  }
}
