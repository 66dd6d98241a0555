/** The part of a Graphviz `Digraph` that the diagram builder drives: a
    graph name, an output format and the body of DOT statements that
    `attr`, `node` and `edge` append to, in call order. Layout and
    rendering are not part of this model. */
module Graphviz {

  /** One DOT statement of a graph body. */
  datatype Stmt =
    | AttrStmt(kind: string, attrs: seq<(string, string)>)  // `graph [..]` or `node [..]`
    | NodeStmt(id: string, labelText: string)
    | EdgeStmt(tail: string, head: string)

  /** The (id, labelText) pairs of the node statements of a body, in order. */
  function NodesOf(body: seq<Stmt>): seq<(string, string)>
  {
    if body == [] then []
    else (match body[0]
          case NodeStmt(id, labelText) => [(id, labelText)]
          case _ => []) + NodesOf(body[1..])
  }

  /** The (tail, head) pairs of the edge statements of a body, in order. */
  function EdgesOf(body: seq<Stmt>): seq<(string, string)>
  {
    if body == [] then []
    else (match body[0]
          case EdgeStmt(tail, head) => [(tail, head)]
          case _ => []) + EdgesOf(body[1..])
  }

  /** The ids of a node list, in order. */
  function Ids(nodes: seq<(string, string)>): seq<string>
  {
    seq(|nodes|, i requires 0 <= i < |nodes| => nodes[i].0)
  }

  /** Extracting nodes distributes over concatenation of bodies. */
  lemma {:induction false} NodesOfAppend(a: seq<Stmt>, b: seq<Stmt>)
    ensures NodesOf(a + b) == NodesOf(a) + NodesOf(b)
  {
    if a != [] {
      assert (a + b)[1..] == a[1..] + b;
      NodesOfAppend(a[1..], b);
    } else {
      assert a + b == b;
    }
  }

  /** Extracting edges distributes over concatenation of bodies. */
  lemma {:induction false} EdgesOfAppend(a: seq<Stmt>, b: seq<Stmt>)
    ensures EdgesOf(a + b) == EdgesOf(a) + EdgesOf(b)
  {
    if a != [] {
      assert (a + b)[1..] == a[1..] + b;
      EdgesOfAppend(a[1..], b);
    } else {
      assert a + b == b;
    }
  }

  /** A body made only of node statements yields one node per statement. */
  lemma {:induction false} NodesOfOnlyNodes(body: seq<Stmt>)
    requires forall i :: 0 <= i < |body| ==> body[i].NodeStmt?
    ensures |NodesOf(body)| == |body|
    ensures forall i :: 0 <= i < |body| ==> NodesOf(body)[i] == (body[i].id, body[i].labelText)
    ensures EdgesOf(body) == []
  {
    if body != [] {
      NodesOfOnlyNodes(body[1..]);
    }
  }

  /** A body made only of edge statements yields one edge per statement. */
  lemma {:induction false} EdgesOfOnlyEdges(body: seq<Stmt>)
    requires forall i :: 0 <= i < |body| ==> body[i].EdgeStmt?
    ensures |EdgesOf(body)| == |body|
    ensures forall i :: 0 <= i < |body| ==> EdgesOf(body)[i] == (body[i].tail, body[i].head)
    ensures NodesOf(body) == []
  {
    if body != [] {
      EdgesOfOnlyEdges(body[1..]);
    }
  }

  /** A directed graph under construction, as the graphviz library's
      `Digraph` keeps it: every call appends one statement to `body`. */
  class Digraph {
    const name: string
    const format: string
    var body: seq<Stmt>

    constructor (name: string, format: string)
      ensures this.name == name && this.format == format
      ensures body == []
    {
      this.name := name;
      this.format := format;
      body := [];
    }

    /** `g.attr(kind, **attrs)`: default attributes for the graph or its nodes. */
    method Attr(kind: string, attrs: seq<(string, string)>)
      modifies this
      ensures body == old(body) + [AttrStmt(kind, attrs)]
    {
      body := body + [AttrStmt(kind, attrs)];
    }

    /** `g.node(id, label=labelText)`. */
    method Node(id: string, labelText: string)
      modifies this
      ensures body == old(body) + [NodeStmt(id, labelText)]
    {
      body := body + [NodeStmt(id, labelText)];
    }

    /** `g.edge(tail, head)`: one statement per call, never merged. */
    method Edge(tail: string, head: string)
      modifies this
      ensures body == old(body) + [EdgeStmt(tail, head)]
    {
      body := body + [EdgeStmt(tail, head)];
    }

    /** The nodes declared so far, in declaration order. */
    function Nodes(): seq<(string, string)>
      reads this
    {
      NodesOf(body)
    }

    /** The edges declared so far, in declaration order. */
    function Edges(): seq<(string, string)>
      reads this
    {
      EdgesOf(body)
    }
  }
}
