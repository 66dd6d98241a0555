/** The schema metadata that the diagram builder reads: an ordered list of
    tables, each with ordered columns carrying a primary-key flag and the
    names of the tables its foreign keys point at. */
module Schema {

  /** A column of a table. `fkTargets` holds, for each foreign key on the
      column, the name of the table that owns the referenced column. */
  datatype Column = Column(name: string, pk: bool, fkTargets: seq<string>)

  /** A table: its name and its columns in declaration order. */
  datatype Table = Table(name: string, columns: seq<Column>)

  /** Names of the given tables, in order. */
  function TableNames(tables: seq<Table>): (r: seq<string>)
    ensures |r| == |tables|
    ensures forall i :: 0 <= i < |tables| ==> r[i] == tables[i].name
  {
    seq(|tables|, i requires 0 <= i < |tables| => tables[i].name)
  }

  /** Number of foreign-key references on the given columns. */
  function ColumnsFkCount(cols: seq<Column>): nat
  {
    if cols == [] then 0 else ColumnsFkCount(cols[..|cols| - 1]) + |cols[|cols| - 1].fkTargets|
  }

  /** Number of foreign-key references over all columns of all tables. */
  function FkCount(tables: seq<Table>): nat
  {
    if tables == [] then 0 else FkCount(tables[..|tables| - 1]) + ColumnsFkCount(tables[|tables| - 1].columns)
  }

  /** The foreign-key references of the given columns of table `owner`, as
      (owner, target) pairs: column by column, and within a column in the
      order of its foreign keys. */
  function ColumnReferences(owner: string, cols: seq<Column>): seq<(string, string)>
  {
    if cols == [] then [] else TargetPairs(owner, cols[0].fkTargets) + ColumnReferences(owner, cols[1..])
  }

  function TargetPairs(owner: string, targets: seq<string>): seq<(string, string)>
  {
    if targets == [] then [] else [(owner, targets[0])] + TargetPairs(owner, targets[1..])
  }

  /** All foreign-key references of the schema, table by table. */
  function References(tables: seq<Table>): seq<(string, string)>
  {
    if tables == [] then [] else ColumnReferences(tables[0].name, tables[0].columns) + References(tables[1..])
  }

  /** Every foreign key of table `t` targets one of `names`. */
  predicate TargetsAmong(t: Table, names: seq<string>)
  {
    forall c, target | c in t.columns && target in c.fkTargets :: target in names
  }

  /** Every foreign key of every table references a table of the schema. */
  predicate ForeignKeysResolve(tables: seq<Table>)
  {
    forall t | t in tables :: TargetsAmong(t, TableNames(tables))
  }

  lemma {:induction false} TargetPairsContain(owner: string, targets: seq<string>, target: string)
    requires target in targets
    ensures (owner, target) in TargetPairs(owner, targets)
  {
    if targets[0] != target {
      TargetPairsContain(owner, targets[1..], target);
    }
  }

  lemma {:induction false} ColumnReferencesContain(owner: string, cols: seq<Column>, c: Column, target: string)
    requires c in cols && target in c.fkTargets
    ensures (owner, target) in ColumnReferences(owner, cols)
  {
    if cols[0] == c {
      TargetPairsContain(owner, c.fkTargets, target);
    } else {
      ColumnReferencesContain(owner, cols[1..], c, target);
    }
  }

  /** Every foreign key of every column appears among the references as a
      pair from its owning table to its target. */
  lemma {:induction false} ReferencesContain(tables: seq<Table>, t: Table, c: Column, target: string)
    requires t in tables && c in t.columns && target in c.fkTargets
    ensures (t.name, target) in References(tables)
  {
    if tables[0] == t {
      ColumnReferencesContain(t.name, t.columns, c, target);
    } else {
      ReferencesContain(tables[1..], t, c, target);
    }
  }

  lemma {:induction false} ColumnReferencesAppend(owner: string, a: seq<Column>, b: seq<Column>)
    ensures ColumnReferences(owner, a + b) == ColumnReferences(owner, a) + ColumnReferences(owner, b)
  {
    if a == [] {
      assert a + b == b;
    } else {
      assert (a + b)[1..] == a[1..] + b;
      ColumnReferencesAppend(owner, a[1..], b);
    }
  }

  lemma {:induction false} ReferencesAppend(a: seq<Table>, b: seq<Table>)
    ensures References(a + b) == References(a) + References(b)
  {
    if a == [] {
      assert a + b == b;
    } else {
      assert (a + b)[1..] == a[1..] + b;
      ReferencesAppend(a[1..], b);
    }
  }

  /** A table's foreign keys all target `names` as soon as its references do. */
  lemma TargetsFromReferences(t: Table, names: seq<string>)
    requires forall e | e in ColumnReferences(t.name, t.columns) :: e.1 in names
    ensures TargetsAmong(t, names)
  {
    forall c, target | c in t.columns && target in c.fkTargets
      ensures target in names
    {
      ColumnReferencesContain(t.name, t.columns, c, target);
    }
  }
}
