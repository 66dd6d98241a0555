# Instagram-style schema and its ER diagram, in Dafny

This project models `src/models.py` of a small social-media backend. That file declares six
SQLAlchemy tables: `user`, `post`, `media`, `comment`, `like` and `follow`. Its `__main__`
block has a `build_graph` routine that turns the schema metadata into a Graphviz `Digraph`.
The graph has one record-shaped node per table. Each node is labelled `{name|field\lfield\l…}`,
with a primary-key field suffixed ` (PK)`. After the nodes comes one directed edge per
foreign-key reference, from the owning table to the referenced table. The routine is run
three times, with a compact, a spaced and a symmetric layout. The model also covers
`User.serialize`, the public dictionary view of a user.

Modules, one file each:

- `Wrappers` (`wrappers.dfy`): `Option`.
- `Schema` (`schema.dfy`): the metadata the builder reads.
  - Tables and columns, in declaration order, each column with its primary-key flag and its
    foreign-key targets.
  - The references of a schema as (owner, target) pairs.
  - What it means for every foreign key to resolve.
- `Graphviz` (`graphviz.dfy`): the part of the graphviz `Digraph` the builder drives. It is a
  class whose `attr`, `node` and `edge` methods each append one statement to its `body`.
- `Labels` (`labels.dfy`): record labels.
  - A label is made of one segment per column.
  - A parser reads the primary-key flags back out of a label. It is the partner of the label
    builder in a round-trip lemma.
- `Diagram` (`diagram.dfy`): `build_graph` as imperative methods over a `Digraph`, each loop
  proved against a specification function of the finished body (`GraphBody`).
  - Lemmas about that body: node and edge counts, positions, order, that edges are exactly
    the references, and that layout only changes the graph-level attributes.
- `DeclaredSchema` (`declared.dfy`): the six declared tables as a constant, and what the
  builder makes of them.
  - Six nodes and nine edges.
  - A self-loop on `comment`.
  - Two parallel `follow` to `user` edges.
  - Every foreign key names a declared table.
- `Users` (`users.dfy`): `User.serialize` as a pure function to a key/value map, with a
  reading-back partner and round-trip lemmas in both directions.

`metadata.tables` keeps the tables in the order their classes are declared. A table's
`columns` keep the order the attributes are declared in. The model takes both orders as
given, as sequences. A column's `foreign_keys` is a set in SQLAlchemy, so its iteration order
is not fixed by the source. The model keeps a column's targets as a sequence in whatever
order that iteration yields. In the declared schema every column has at most one foreign
key, so the order does not matter there.

## Model

| member | source | states |
|---|---|---|
| `Graphviz.Digraph.constructor` | src/models.py:123 | a new graph has the given name and format and an empty body |
| `Graphviz.Digraph.Attr` | src/models.py:124-125 | `g.attr` appends one attribute statement and changes nothing else |
| `Graphviz.Digraph.Node` | src/models.py:135 | `g.node` appends one node statement with the given id and label |
| `Graphviz.Digraph.Edge` | src/models.py:140 | `g.edge` appends one edge statement; repeated calls are never merged |
| `Graphviz.NodesOfOnlyNodes` | src/models.py:126-135 | a run of node statements yields exactly those nodes, in order, and no edges |
| `Graphviz.EdgesOfOnlyEdges` | src/models.py:136-140 | a run of edge statements yields exactly those edges, in order, and no nodes |
| `Schema.ReferencesContain` | src/models.py:136-140 | every foreign key of every column appears among the schema's references as (owning table, target table) |
| `Schema.ReferencesAppend` | src/models.py:136-140 | the references of two table lists laid end to end are the two lists' references laid end to end |
| `Schema.TargetsFromReferences` | src/models.py:136-139 | a table's foreign keys all target a given set of names when all its reference pairs do |
| `Labels.SegmentMarksPrimaryKey` | src/models.py:130-133 | a column's segment is name + ` (PK)` + `\l` exactly when the column is a primary key, and name + `\l` exactly when it is not |
| `Labels.FieldsHoldSegmentsInOrder` | src/models.py:128-134 | inside the joined fields, column i's segment sits right after the segments of columns 0..i-1 |
| `Labels.JoinAt` | src/models.py:134 | `''.join` places each part right after the parts before it |
| `Labels.JoinLength` | src/models.py:134 | the joined string is as long as its parts together |
| `Labels.ParseFieldsOfSegments` | src/models.py:128-134 | round trip: parsing the joined segments against the column names gives back exactly the columns' primary-key flags |
| `Labels.ParseLabelOfLabel` | src/models.py:128-134 | round trip for the whole label: braces, table name, bar, fields |
| `Diagram.RecordLabel` | src/models.py:128-134 | the fields loop builds exactly the record label of the table |
| `Diagram.AddNodes` | src/models.py:126-135 | the first loop appends one node per table, in table order, with the table's record label |
| `Diagram.AddEdges` | src/models.py:136-140 | the second loop appends the edges of every table, table by table |
| `Diagram.AddTableEdges` | src/models.py:137-140 | the edges of one table, column by column |
| `Diagram.AddColumnEdges` | src/models.py:138-140 | the edges of one column, one per foreign key, from the table to the target |
| `Diagram.BuildGraph` | src/models.py:122-141 | for metadata whose foreign keys all resolve, a fresh `png` graph with the given name whose body is the graph attributes, the record shape, all nodes, then all edges, and every edge runs between two nodes of the graph |
| `Diagram.BuildDiagrams` | src/models.py:150-155 | for metadata whose foreign keys all resolve, the three diagrams get their names and layouts, and have identical node and edge sequences |
| `Diagram.NodesOfBody` | src/models.py:123-140 | the nodes of the body come only from the node pass and the edges only from the edge pass |
| `Diagram.NodesMatchTables` | src/models.py:126-135 | exactly one node per table, in table order, with the table name as id and the table's label |
| `Diagram.NodeIdsAreTableNames` | src/models.py:126-135 | the node ids are the table names in metadata order |
| `Diagram.NodesBeforeEdges` | src/models.py:123-140 | the body opens with the graph attributes and the record shape, and every node statement comes before every edge statement |
| `Diagram.EdgeStmtsShape` | src/models.py:136-140 | the edge pass yields as many statements as there are foreign keys, all of them edges |
| `Diagram.EdgeStmtsAt` | src/models.py:136-140 | the edge for (table, column, foreign key) sits at its lexicographic position and goes from the table to the target |
| `Diagram.EdgesAreReferences` | src/models.py:136-140 | the edges of the diagram are exactly the schema's references, in order, with duplicates kept |
| `Diagram.EdgeCount` | src/models.py:136-140 | the number of edges is the sum over all columns of their foreign-key counts |
| `Diagram.FkCountIsReferences` | src/models.py:136-140 | the foreign-key count is the number of references |
| `Diagram.EdgeOfReference` | src/models.py:136-140 | each foreign key gives an edge at its lexicographic index, from its table to its target |
| `Diagram.EdgeIndexOrdered` | src/models.py:136-140 | edges are ordered by (table order, column order, foreign-key order) |
| `Diagram.ReferenceOfEdge` | src/models.py:136-140 | every edge index comes from some foreign key, so there are no other edges |
| `Diagram.EdgesEndAtNodes` | src/models.py:126-140 | when every foreign key names a table of the schema, both ends of every edge are node ids |
| `Diagram.LayoutOnlyChangesGraphAttrs` | src/models.py:123-125 | two layouts give bodies that differ only in the graph attribute statement; node shape is always `record` |
| `DeclaredSchema.UserReferences` | src/models.py:11-22 | `user` declares no foreign key |
| `DeclaredSchema.PostReferences` | src/models.py:52 | `post.user_id` references `user` |
| `DeclaredSchema.MediaReferences` | src/models.py:70 | `media.post_id` references `post` |
| `DeclaredSchema.CommentReferences` | src/models.py:81-85 | `comment` references `post`, `user` and itself through `parent_id` |
| `DeclaredSchema.LikeReferences` | src/models.py:96-97 | `like` references `user` and `post` |
| `DeclaredSchema.FollowReferences` | src/models.py:107-108 | `follow` references `user` twice |
| `DeclaredSchema.DeclaredReferences` | src/models.py:11-115 | the nine references of the declared schema, in order |
| `DeclaredSchema.DeclaredTableNames` | src/models.py:12-105 | the table names are `user`, `post`, `media`, `comment`, `like`, `follow` |
| `DeclaredSchema.DeclaredCounts` | src/models.py:11-115 | six tables and nine foreign keys |
| `DeclaredSchema.UserTargetsDeclared` | src/models.py:11-22 | `user`'s foreign keys (none) name declared tables |
| `DeclaredSchema.PostTargetsDeclared` | src/models.py:52 | `post`'s foreign key names a declared table |
| `DeclaredSchema.MediaTargetsDeclared` | src/models.py:70 | `media`'s foreign key names a declared table |
| `DeclaredSchema.CommentTargetsDeclared` | src/models.py:81-85 | `comment`'s foreign keys name declared tables |
| `DeclaredSchema.LikeTargetsDeclared` | src/models.py:96-97 | `like`'s foreign keys name declared tables |
| `DeclaredSchema.FollowTargetsDeclared` | src/models.py:107-108 | `follow`'s foreign keys name declared tables |
| `DeclaredSchema.DeclaredForeignKeysResolve` | src/models.py:11-115 | every foreign key of the declared schema names a declared table |
| `DeclaredSchema.DeclaredNodes` | src/models.py:126-135 | the declared diagram's node ids are the six table names in declaration order |
| `DeclaredSchema.DeclaredEdges` | src/models.py:136-140 | the declared diagram has nine edges, with the `comment` self-loop and two parallel `follow` to `user` edges |
| `Users.Serialize` | src/models.py:35-46 | exactly nine keys, never `password`, and `created_at` is null exactly when unset |
| `Users.IntOf` | src/models.py:37 | reading back an integer-or-null value inverts its serialization |
| `Users.StrOf` | src/models.py:38-45 | reading back a string-or-null value inverts its serialization |
| `Users.BoolOf` | src/models.py:42-43 | reading back a boolean-or-null value inverts its serialization |
| `Users.DeserializeSerialize` | src/models.py:35-46 | the public view plus the password gives back the user, so no other attribute is lost |
| `Users.SerializeDeserialize` | src/models.py:35-46 | whatever is read back from a view serializes to that same view |
| `Users.SerializeIgnoresPassword` | src/models.py:35-46 | the password has no influence on the public view |
| `Users.SerializeInjective` | src/models.py:35-46 | two users with the same view differ at most in their password |

## Left out

- Rendering: `g.render` and Graphviz layout and PNG output (src/models.py:151-155). These are a
  foreign library and file output. The model stops at the statements handed to the library.
- The scratch SQLite database. This covers its creation and removal, `create_engine`,
  `create_all`, `os.replace` to `diagram.png`, and the `try`/`finally` that swallows cleanup
  errors (src/models.py:143-162). This is file-system and engine plumbing with no effect on
  the graphs.
- `db = SQLAlchemy()` (src/models.py:8) and the ORM behaviour of `relationship`,
  `back_populates`, `backref`, `remote_side` and `cascade`. This is library behaviour that
  adds no columns or foreign keys.
- Column types, string lengths, `unique`/`nullable` constraints and `datetime.utcnow`
  defaults. The database enforces these, and the diagram does not show them. So a `User` may
  have any attribute unset.
- `isoformat()` on `created_at` (src/models.py:45): a library call. The model takes the
  creation time as an already formatted optional string.
- `str()` of the layout parameters (src/models.py:124): the model takes them as strings.
- The graph's `name` and `format` are kept. Other `Digraph` state is not modelled.
- Iteration order of a column's `foreign_keys` set: it is taken as the order of the column's
  target sequence.
- BuildGraph: requires every foreign key to name a table of the metadata. Resolving such a
  key (`fk.column`, src/models.py:139) raises in the source, so the routine returns no
  graph. The model does not represent that failure and states nothing for such metadata.
  The declared schema meets the requirement (`DeclaredSchema.DeclaredForeignKeysResolve`).
- BuildDiagrams: the same requirement, since it calls `BuildGraph` three times.
- The default keyword arguments of `build_graph` (`nodesep='0.25'`, `ranksep='0.5'`,
  `rankdir='TB'`, src/models.py:122). Every call site passes all three, so `BuildGraph`
  always takes an explicit `Layout`. The defaults equal `Compact`.
