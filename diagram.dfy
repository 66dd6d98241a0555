/** The ER-diagram builder: one record node per table, then one directed
    edge per foreign-key reference, on a fresh `Digraph` whose graph-level
    attributes carry the layout parameters. */
module Diagram {
  import opened Schema
  import opened Labels
  import opened Graphviz

  /** Layout parameters, handed to the graph as attribute strings. */
  datatype Layout = Layout(nodesep: string, ranksep: string, rankdir: string)

  /** The three layouts the diagram is built with; `Compact` is also the
      builder's default. */
  const Compact: Layout := Layout("0.25", "0.5", "TB")
  const Spaced: Layout := Layout("1.0", "1.2", "TB")
  const Symmetric: Layout := Layout("1.2", "1.0", "LR")

  /** Graph-level attribute statement for a layout. */
  function GraphAttrs(layout: Layout): Stmt
  {
    AttrStmt("graph", [("nodesep", layout.nodesep), ("ranksep", layout.ranksep), ("rankdir", layout.rankdir)])
  }

  /** Node-level attribute statement: every node is drawn as a record. */
  const RecordShape: Stmt := AttrStmt("node", [("shape", "record")])

  /** The two attribute statements that open every diagram. */
  function Header(layout: Layout): seq<Stmt>
  {
    [GraphAttrs(layout), RecordShape]
  }

  /** One node statement per table, in table order. */
  function NodeStmts(tables: seq<Table>): seq<Stmt>
  {
    seq(|tables|, i requires 0 <= i < |tables| => NodeStmt(tables[i].name, Label(tables[i])))
  }

  /** One edge from `src` per foreign-key target, in order. */
  function TargetEdges(src: string, targets: seq<string>): seq<Stmt>
  {
    seq(|targets|, i requires 0 <= i < |targets| => EdgeStmt(src, targets[i]))
  }

  /** The edges contributed by the given columns of table `src`. */
  function ColumnsEdges(src: string, cols: seq<Column>): seq<Stmt>
  {
    if cols == [] then []
    else ColumnsEdges(src, cols[..|cols| - 1]) + TargetEdges(src, cols[|cols| - 1].fkTargets)
  }

  /** The edges contributed by the given tables, table by table. */
  function EdgeStmts(tables: seq<Table>): seq<Stmt>
  {
    if tables == [] then []
    else EdgeStmts(tables[..|tables| - 1]) + ColumnsEdges(tables[|tables| - 1].name, tables[|tables| - 1].columns)
  }

  /** The whole body the builder produces. */
  function GraphBody(tables: seq<Table>, layout: Layout): seq<Stmt>
  {
    Header(layout) + NodeStmts(tables) + EdgeStmts(tables)
  }

  /** Position of the edge for foreign key `fi` of column `ci` of table `ti`
      among all edges: after every edge of the earlier tables and of the
      earlier columns of the same table. */
  function EdgeIndex(tables: seq<Table>, ti: nat, ci: nat, fi: nat): nat
    requires ti < |tables| && ci <= |tables[ti].columns|
  {
    FkCount(tables[..ti]) + ColumnsFkCount(tables[ti].columns[..ci]) + fi
  }

  /** A valid foreign-key reference: table, column within it, target within it. */
  predicate IsReference(tables: seq<Table>, ti: nat, ci: nat, fi: nat)
  {
    ti < |tables| && ci < |tables[ti].columns| && fi < |tables[ti].columns[ci].fkTargets|
  }

  /** The label of one table's node, built as the builder does: a list of
      fields, one per column, then joined inside the record braces. */
  method RecordLabel(table: Table) returns (text: string)
    ensures text == Label(table)
  {
    var fields: seq<string> := [];
    for j := 0 to |table.columns|
      invariant fields == Segments(table.columns[..j])
    {
      var col := table.columns[j];
      var colname := col.name;
      if col.pk {
        colname := colname + PkMarker;
      }
      assert colname + LineEnd == Segment(col);
      fields := fields + [colname + LineEnd];
      assert fields == Segments(table.columns[..j + 1]);
    }
    assert table.columns[..|table.columns|] == table.columns;
    text := "{" + table.name + "|" + Join(fields) + "}";
  }

  /** Builds the diagram of `tables` with the given graph name and layout:
      the attribute statements, then a node per table, then an edge per
      foreign-key reference. Resolving a foreign key to its table fails on
      a key that names no table of the metadata, so every key must resolve;
      then every edge runs between two nodes of the graph. */
  method BuildGraph(tables: seq<Table>, name: string, layout: Layout) returns (g: Digraph)
    requires ForeignKeysResolve(tables)
    ensures fresh(g) && g.name == name && g.format == "png"
    ensures g.body == GraphBody(tables, layout)
    ensures forall k | 0 <= k < |g.Edges()| :: g.Edges()[k].0 in Ids(g.Nodes()) && g.Edges()[k].1 in Ids(g.Nodes())
  {
    g := new Digraph(name, "png");
    g.Attr("graph", [("nodesep", layout.nodesep), ("ranksep", layout.ranksep), ("rankdir", layout.rankdir)]);
    g.Attr("node", [("shape", "record")]);
    AddNodes(g, tables);
    AddEdges(g, tables);
    assert g.body == GraphBody(tables, layout);
    forall k | 0 <= k < |g.Edges()|
      ensures g.Edges()[k].0 in Ids(g.Nodes()) && g.Edges()[k].1 in Ids(g.Nodes())
    {
      EdgesEndAtNodes(tables, layout, k);
    }
  }

  /** The builder's first pass over the tables: one record node each. */
  method AddNodes(g: Digraph, tables: seq<Table>)
    modifies g
    ensures g.body == old(g.body) + NodeStmts(tables)
  {
    ghost var before := g.body;
    for i := 0 to |tables|
      invariant g.body == before + NodeStmts(tables[..i])
    {
      var text := RecordLabel(tables[i]);
      g.Node(tables[i].name, text);
      assert NodeStmts(tables[..i + 1]) == NodeStmts(tables[..i]) + [NodeStmt(tables[i].name, text)];
    }
    assert tables[..|tables|] == tables;
  }

  /** The builder's second pass over the tables: one edge per foreign key
      of every column, from the owning table to the referenced table. */
  method AddEdges(g: Digraph, tables: seq<Table>)
    modifies g
    ensures g.body == old(g.body) + EdgeStmts(tables)
  {
    ghost var before := g.body;
    for i := 0 to |tables|
      invariant g.body == before + EdgeStmts(tables[..i])
    {
      assert tables[..i + 1][..i] == tables[..i];
      AddTableEdges(g, tables[i].name, tables[i].columns);
    }
    assert tables[..|tables|] == tables;
  }

  /** The edges of one table: its columns in order. */
  method AddTableEdges(g: Digraph, tname: string, cols: seq<Column>)
    modifies g
    ensures g.body == old(g.body) + ColumnsEdges(tname, cols)
  {
    ghost var before := g.body;
    for j := 0 to |cols|
      invariant g.body == before + ColumnsEdges(tname, cols[..j])
    {
      assert cols[..j + 1][..j] == cols[..j];
      AddColumnEdges(g, tname, cols[j].fkTargets);
    }
    assert cols[..|cols|] == cols;
  }

  /** The edges of one column: one per foreign key, never merged. */
  method AddColumnEdges(g: Digraph, tname: string, targets: seq<string>)
    modifies g
    ensures g.body == old(g.body) + TargetEdges(tname, targets)
  {
    ghost var before := g.body;
    for k := 0 to |targets|
      invariant g.body == before + TargetEdges(tname, targets[..k])
    {
      g.Edge(tname, targets[k]);
      assert TargetEdges(tname, targets[..k + 1]) == TargetEdges(tname, targets[..k]) + [EdgeStmt(tname, targets[k])];
    }
    assert targets[..|targets|] == targets;
  }

  /** The three diagrams: the same schema under the compact, spaced and
      symmetric layouts. */
  method BuildDiagrams(tables: seq<Table>) returns (compact: Digraph, spaced: Digraph, symmetric: Digraph)
    requires ForeignKeysResolve(tables)
    ensures fresh(compact) && fresh(spaced) && fresh(symmetric)
    ensures compact.name == "compact" && spaced.name == "spaced" && symmetric.name == "symmetric"
    ensures compact.body == GraphBody(tables, Compact)
    ensures spaced.body == GraphBody(tables, Spaced)
    ensures symmetric.body == GraphBody(tables, Symmetric)
    ensures compact.Nodes() == spaced.Nodes() == symmetric.Nodes()
    ensures compact.Edges() == spaced.Edges() == symmetric.Edges()
  {
    compact := BuildGraph(tables, "compact", Compact);
    spaced := BuildGraph(tables, "spaced", Spaced);
    symmetric := BuildGraph(tables, "symmetric", Symmetric);
    LayoutOnlyChangesGraphAttrs(tables, Compact, Spaced);
    LayoutOnlyChangesGraphAttrs(tables, Spaced, Symmetric);
  }

  // ---------------------------------------------------------------------
  // Shape of the body

  lemma {:induction false} ColumnsEdgesShape(src: string, cols: seq<Column>)
    ensures |ColumnsEdges(src, cols)| == ColumnsFkCount(cols)
    ensures forall k :: 0 <= k < |ColumnsEdges(src, cols)| ==>
              ColumnsEdges(src, cols)[k].EdgeStmt? && ColumnsEdges(src, cols)[k].tail == src
  {
    if cols != [] {
      ColumnsEdgesShape(src, cols[..|cols| - 1]);
    }
  }

  lemma {:induction false} EdgeStmtsShape(tables: seq<Table>)
    ensures |EdgeStmts(tables)| == FkCount(tables)
    ensures forall k :: 0 <= k < |EdgeStmts(tables)| ==> EdgeStmts(tables)[k].EdgeStmt?
  {
    if tables != [] {
      var last := tables[|tables| - 1];
      EdgeStmtsShape(tables[..|tables| - 1]);
      ColumnsEdgesShape(last.name, last.columns);
    }
  }

  /** Node extraction sees exactly the node statements, one per table. */
  lemma NodesOfBody(tables: seq<Table>, layout: Layout)
    ensures NodesOf(GraphBody(tables, layout)) == NodesOf(NodeStmts(tables))
    ensures EdgesOf(GraphBody(tables, layout)) == EdgesOf(EdgeStmts(tables))
  {
    var h := Header(layout);
    NodesOfAppend(h + NodeStmts(tables), EdgeStmts(tables));
    NodesOfAppend(h, NodeStmts(tables));
    EdgesOfAppend(h + NodeStmts(tables), EdgeStmts(tables));
    EdgesOfAppend(h, NodeStmts(tables));
    assert NodesOf(h) == [] by {
      assert h[1..][1..] == [];
    }
    assert EdgesOf(h) == [] by {
      assert h[1..][1..] == [];
    }
    NodesOfOnlyNodes(NodeStmts(tables));
    EdgeStmtsShape(tables);
    EdgesOfOnlyEdges(EdgeStmts(tables));
  }

  // ---------------------------------------------------------------------
  // Nodes

  /** Exactly one node per table, in table order, with the table name as id
      and the table's record label. */
  lemma NodesMatchTables(tables: seq<Table>, layout: Layout)
    ensures |NodesOf(GraphBody(tables, layout))| == |tables|
    ensures forall i :: 0 <= i < |tables| ==>
              NodesOf(GraphBody(tables, layout))[i] == (tables[i].name, Label(tables[i]))
  {
    NodesOfBody(tables, layout);
    NodesOfOnlyNodes(NodeStmts(tables));
  }

  /** The node ids of the diagram are the table names, in order. */
  lemma NodeIdsAreTableNames(tables: seq<Table>, layout: Layout)
    ensures Ids(NodesOf(GraphBody(tables, layout))) == TableNames(tables)
  {
    NodesMatchTables(tables, layout);
  }

  /** Every node statement comes after the two attribute statements and
      before every edge statement. */
  lemma NodesBeforeEdges(tables: seq<Table>, layout: Layout)
    ensures GraphBody(tables, layout)[0] == GraphAttrs(layout)
    ensures GraphBody(tables, layout)[1] == RecordShape
    ensures forall i, j ::
              (0 <= i < |GraphBody(tables, layout)| && 0 <= j < |GraphBody(tables, layout)| &&
               GraphBody(tables, layout)[i].NodeStmt? && GraphBody(tables, layout)[j].EdgeStmt?) ==> i < j
  {
    var b := GraphBody(tables, layout);
    var n := |tables|;
    EdgeStmtsShape(tables);
    assert forall i :: 0 <= i < 2 + n ==> !b[i].EdgeStmt?;
    assert forall i :: 2 + n <= i < |b| ==> !b[i].NodeStmt?;
  }

  // ---------------------------------------------------------------------
  // Edges

  lemma ColumnsFkCountStep(cols: seq<Column>, ci: nat)
    requires ci < |cols|
    ensures ColumnsFkCount(cols[..ci + 1]) == ColumnsFkCount(cols[..ci]) + |cols[ci].fkTargets|
  {
    assert cols[..ci + 1][..ci] == cols[..ci];
  }

  lemma {:induction false} ColumnsFkCountMonotone(cols: seq<Column>, a: nat, b: nat)
    requires a <= b <= |cols|
    ensures ColumnsFkCount(cols[..a]) <= ColumnsFkCount(cols[..b])
    decreases b - a
  {
    if a < b {
      ColumnsFkCountStep(cols, a);
      ColumnsFkCountMonotone(cols, a + 1, b);
    }
  }

  lemma FkCountStep(tables: seq<Table>, ti: nat)
    requires ti < |tables|
    ensures FkCount(tables[..ti + 1]) == FkCount(tables[..ti]) + ColumnsFkCount(tables[ti].columns)
  {
    assert tables[..ti + 1][..ti] == tables[..ti];
  }

  lemma {:induction false} FkCountMonotone(tables: seq<Table>, a: nat, b: nat)
    requires a <= b <= |tables|
    ensures FkCount(tables[..a]) <= FkCount(tables[..b])
    decreases b - a
  {
    if a < b {
      FkCountStep(tables, a);
      FkCountMonotone(tables, a + 1, b);
    }
  }

  lemma {:induction false} ColumnsEdgesAt(src: string, cols: seq<Column>, ci: nat, fi: nat)
    requires ci < |cols| && fi < |cols[ci].fkTargets|
    ensures ColumnsFkCount(cols[..ci]) + fi < |ColumnsEdges(src, cols)|
    ensures ColumnsEdges(src, cols)[ColumnsFkCount(cols[..ci]) + fi] == EdgeStmt(src, cols[ci].fkTargets[fi])
  {
    var init := cols[..|cols| - 1];
    ColumnsEdgesShape(src, init);
    if ci == |cols| - 1 {
      assert cols[..ci] == init;
    } else {
      assert init[..ci] == cols[..ci];
      ColumnsEdgesAt(src, init, ci, fi);
    }
  }

  lemma {:induction false} EdgeStmtsAt(tables: seq<Table>, ti: nat, ci: nat, fi: nat)
    requires IsReference(tables, ti, ci, fi)
    ensures EdgeIndex(tables, ti, ci, fi) < |EdgeStmts(tables)|
    ensures EdgeStmts(tables)[EdgeIndex(tables, ti, ci, fi)] ==
              EdgeStmt(tables[ti].name, tables[ti].columns[ci].fkTargets[fi])
  {
    var init := tables[..|tables| - 1];
    var last := tables[|tables| - 1];
    EdgeStmtsShape(init);
    ColumnsEdgesAt(tables[ti].name, tables[ti].columns, ci, fi);
    if ti == |tables| - 1 {
      assert tables[..ti] == init;
    } else {
      assert init[..ti] == tables[..ti];
      EdgeStmtsAt(init, ti, ci, fi);
    }
  }

  lemma {:induction false} TargetEdgesAreReferences(src: string, targets: seq<string>)
    ensures EdgesOf(TargetEdges(src, targets)) == TargetPairs(src, targets)
  {
    if targets != [] {
      assert TargetEdges(src, targets) == [EdgeStmt(src, targets[0])] + TargetEdges(src, targets[1..]);
      EdgesOfAppend([EdgeStmt(src, targets[0])], TargetEdges(src, targets[1..]));
      TargetEdgesAreReferences(src, targets[1..]);
    }
  }

  lemma {:induction false} ColumnsEdgesAreReferences(src: string, cols: seq<Column>)
    ensures EdgesOf(ColumnsEdges(src, cols)) == ColumnReferences(src, cols)
  {
    if cols != [] {
      var init, last := cols[..|cols| - 1], cols[|cols| - 1];
      ColumnsEdgesAreReferences(src, init);
      EdgesOfAppend(ColumnsEdges(src, init), TargetEdges(src, last.fkTargets));
      TargetEdgesAreReferences(src, last.fkTargets);
      ColumnReferencesAppend(src, init, [last]);
      assert init + [last] == cols;
      assert ColumnReferences(src, [last]) == TargetPairs(src, last.fkTargets) by {
        assert [last][1..] == [];
      }
    }
  }

  lemma {:induction false} EdgeStmtsAreReferences(tables: seq<Table>)
    ensures EdgesOf(EdgeStmts(tables)) == References(tables)
  {
    if tables != [] {
      var init, last := tables[..|tables| - 1], tables[|tables| - 1];
      EdgeStmtsAreReferences(init);
      EdgesOfAppend(EdgeStmts(init), ColumnsEdges(last.name, last.columns));
      ColumnsEdgesAreReferences(last.name, last.columns);
      ReferencesAppend(init, [last]);
      assert init + [last] == tables;
      assert References([last]) == ColumnReferences(last.name, last.columns) by {
        assert [last][1..] == [];
      }
    }
  }

  /** The edges of the diagram are exactly the schema's foreign-key
      references, from owning table to target table, in table, column and
      key order, with nothing merged. */
  lemma EdgesAreReferences(tables: seq<Table>, layout: Layout)
    ensures EdgesOf(GraphBody(tables, layout)) == References(tables)
  {
    NodesOfBody(tables, layout);
    EdgeStmtsAreReferences(tables);
  }

  /** One edge per foreign-key reference: the edge count is the number of
      references over all columns of all tables. */
  lemma EdgeCount(tables: seq<Table>, layout: Layout)
    ensures |EdgesOf(GraphBody(tables, layout))| == FkCount(tables)
  {
    NodesOfBody(tables, layout);
    EdgeStmtsShape(tables);
    EdgesOfOnlyEdges(EdgeStmts(tables));
  }

  /** Counting the references table by table gives their number. */
  lemma FkCountIsReferences(tables: seq<Table>)
    ensures FkCount(tables) == |References(tables)|
  {
    EdgeCount(tables, Compact);
    EdgesAreReferences(tables, Compact);
  }

  /** The reference (ti, ci, fi) yields, at position EdgeIndex, an edge from
      its owning table to its target table. */
  lemma EdgeOfReference(tables: seq<Table>, layout: Layout, ti: nat, ci: nat, fi: nat)
    requires IsReference(tables, ti, ci, fi)
    ensures EdgeIndex(tables, ti, ci, fi) < |EdgesOf(GraphBody(tables, layout))|
    ensures EdgesOf(GraphBody(tables, layout))[EdgeIndex(tables, ti, ci, fi)] ==
              (tables[ti].name, tables[ti].columns[ci].fkTargets[fi])
  {
    NodesOfBody(tables, layout);
    EdgeStmtsShape(tables);
    EdgesOfOnlyEdges(EdgeStmts(tables));
    EdgeStmtsAt(tables, ti, ci, fi);
  }

  /** Edge positions follow the lexicographic order of (table, column,
      foreign key); distinct references never share an edge. */
  lemma EdgeIndexOrdered(tables: seq<Table>, ti: nat, ci: nat, fi: nat, tj: nat, cj: nat, fj: nat)
    requires IsReference(tables, ti, ci, fi) && IsReference(tables, tj, cj, fj)
    requires ti < tj || (ti == tj && ci < cj) || (ti == tj && ci == cj && fi < fj)
    ensures EdgeIndex(tables, ti, ci, fi) < EdgeIndex(tables, tj, cj, fj)
  {
    var cols := tables[ti].columns;
    ColumnsFkCountStep(cols, ci);
    if ti < tj {
      ColumnsFkCountMonotone(cols, ci + 1, |cols|);
      assert cols[..|cols|] == cols;
      FkCountStep(tables, ti);
      FkCountMonotone(tables, ti + 1, tj);
    } else if ci < cj {
      ColumnsFkCountMonotone(cols, ci + 1, cj);
    }
  }

  /** Every edge comes from some foreign-key reference, found at its
      position: the edges are exactly the references, in order. */
  lemma {:induction false} ReferenceOfEdge(tables: seq<Table>, k: nat) returns (ti: nat, ci: nat, fi: nat)
    requires k < FkCount(tables)
    ensures IsReference(tables, ti, ci, fi)
    ensures EdgeIndex(tables, ti, ci, fi) == k
  {
    var init := tables[..|tables| - 1];
    var last := tables[|tables| - 1];
    if k < FkCount(init) {
      ti, ci, fi := ReferenceOfEdge(init, k);
      assert init[..ti] == tables[..ti];
    } else {
      ti := |tables| - 1;
      assert tables[..ti] == init;
      ci, fi := ReferenceInColumns(last.columns, k - FkCount(init));
    }
  }

  lemma {:induction false} ReferenceInColumns(cols: seq<Column>, k: nat) returns (ci: nat, fi: nat)
    requires k < ColumnsFkCount(cols)
    ensures ci < |cols| && fi < |cols[ci].fkTargets|
    ensures ColumnsFkCount(cols[..ci]) + fi == k
  {
    var init := cols[..|cols| - 1];
    if k < ColumnsFkCount(init) {
      ci, fi := ReferenceInColumns(init, k);
      assert init[..ci] == cols[..ci];
    } else {
      ci := |cols| - 1;
      assert cols[..ci] == init;
      fi := k - ColumnsFkCount(init);
    }
  }

  /** When every foreign key names a table of the schema, both ends of
      every edge are node ids of the diagram. */
  lemma EdgesEndAtNodes(tables: seq<Table>, layout: Layout, k: nat)
    requires ForeignKeysResolve(tables)
    requires k < |EdgesOf(GraphBody(tables, layout))|
    ensures EdgesOf(GraphBody(tables, layout))[k].0 in Ids(NodesOf(GraphBody(tables, layout)))
    ensures EdgesOf(GraphBody(tables, layout))[k].1 in Ids(NodesOf(GraphBody(tables, layout)))
  {
    EdgeCount(tables, layout);
    var ti, ci, fi := ReferenceOfEdge(tables, k);
    EdgeOfReference(tables, layout, ti, ci, fi);
    NodesMatchTables(tables, layout);
    var ids := Ids(NodesOf(GraphBody(tables, layout)));
    assert ids == TableNames(tables);
    var t := tables[ti];
    var c := t.columns[ci];
    assert t in tables && c in t.columns && c.fkTargets[fi] in c.fkTargets;
  }

  // ---------------------------------------------------------------------
  // Layout

  /** The layout parameters reach only the graph attribute statement: the
      node shape is always `record`, and everything after the two attribute
      statements, hence every node and every edge, is the same. */
  lemma LayoutOnlyChangesGraphAttrs(tables: seq<Table>, l1: Layout, l2: Layout)
    ensures GraphBody(tables, l1)[0] == GraphAttrs(l1) && GraphBody(tables, l2)[0] == GraphAttrs(l2)
    ensures GraphBody(tables, l1)[1] == GraphBody(tables, l2)[1] == RecordShape
    ensures GraphBody(tables, l1)[2..] == GraphBody(tables, l2)[2..]
    ensures NodesOf(GraphBody(tables, l1)) == NodesOf(GraphBody(tables, l2))
    ensures EdgesOf(GraphBody(tables, l1)) == EdgesOf(GraphBody(tables, l2))
  {
    NodesOfBody(tables, l1);
    NodesOfBody(tables, l2);
  }
}
