/** The application's declared schema (users, posts, media, comments,
    likes, follows) as the metadata the diagram builder reads, and what
    the builder makes of it. */
module DeclaredSchema {
  import opened Schema
  import opened Labels
  import opened Graphviz
  import opened Diagram

  const UserTable: Table := Table("user", [
    Column("id", true, []), Column("username", false, []), Column("email", false, []), Column("password", false, []), Column("full_name", false, []),
    Column("bio", false, []), Column("website", false, []), Column("is_private", false, []), Column("is_verified", false, []), Column("created_at", false, [])])

  const PostTable: Table := Table("post", [
    Column("id", true, []), Column("user_id", false, ["user"]), Column("caption", false, []), Column("location", false, []), Column("created_at", false, []),
    Column("is_archived", false, [])])

  const MediaTable: Table := Table("media", [
    Column("id", true, []), Column("post_id", false, ["post"]), Column("media_type", false, []), Column("url", false, []), Column("order", false, [])])

  /** `parent_id` refers back to `comment` itself: threaded replies. */
  const CommentTable: Table := Table("comment", [
    Column("id", true, []), Column("post_id", false, ["post"]), Column("user_id", false, ["user"]), Column("content", false, []), Column("created_at", false, []),
    Column("parent_id", false, ["comment"])])

  const LikeTable: Table := Table("like", [
    Column("id", true, []), Column("user_id", false, ["user"]), Column("post_id", false, ["post"]), Column("created_at", false, [])])

  /** Both `follower_id` and `followed_id` refer to `user`. */
  const FollowTable: Table := Table("follow", [
    Column("id", true, []), Column("follower_id", false, ["user"]), Column("followed_id", false, ["user"]), Column("created_at", false, []),
    Column("is_accepted", false, [])])

  /** The tables in declaration order, the order the metadata lists them. */
  const Declared: seq<Table> := [UserTable, PostTable, MediaTable, CommentTable, LikeTable, FollowTable]

  /** The table names, in declaration order. */
  const DeclaredNames: seq<string> := ["user", "post", "media", "comment", "like", "follow"]

  /** Per table: its foreign-key references. */
  lemma UserReferences()
    ensures ColumnReferences(UserTable.name, UserTable.columns) == []
  {}

  lemma PostReferences()
    ensures ColumnReferences(PostTable.name, PostTable.columns) == [("post", "user")]
  {}

  lemma MediaReferences()
    ensures ColumnReferences(MediaTable.name, MediaTable.columns) == [("media", "post")]
  {}

  lemma CommentReferences()
    ensures ColumnReferences(CommentTable.name, CommentTable.columns) ==
              [("comment", "post"), ("comment", "user"), ("comment", "comment")]
  {}

  lemma LikeReferences()
    ensures ColumnReferences(LikeTable.name, LikeTable.columns) == [("like", "user"), ("like", "post")]
  {}

  lemma FollowReferences()
    ensures ColumnReferences(FollowTable.name, FollowTable.columns) == [("follow", "user"), ("follow", "user")]
  {}

  /** Proof helper: references of any six-table schema, table by table,
      stated on parameters so the constant tables are not unfolded. */
  lemma ReferencesOfSix(t0: Table, t1: Table, t2: Table, t3: Table, t4: Table, t5: Table)
    ensures References([t0, t1, t2, t3, t4, t5]) ==
              ColumnReferences(t0.name, t0.columns) + (ColumnReferences(t1.name, t1.columns) +
              (ColumnReferences(t2.name, t2.columns) + (ColumnReferences(t3.name, t3.columns) +
              (ColumnReferences(t4.name, t4.columns) + ColumnReferences(t5.name, t5.columns)))))
  {
    var ts := [t0, t1, t2, t3, t4, t5];
    var c2, c3, c4, c5 := ColumnReferences(t2.name, t2.columns), ColumnReferences(t3.name, t3.columns),
                          ColumnReferences(t4.name, t4.columns), ColumnReferences(t5.name, t5.columns);
    assert ts[5..][1..] == [];
    assert References(ts[5..]) == c5;
    assert ts[4..][1..] == ts[5..];
    assert References(ts[4..]) == c4 + c5;
    assert ts[3..][1..] == ts[4..];
    assert References(ts[3..]) == c3 + (c4 + c5);
    assert ts[2..][1..] == ts[3..];
    assert References(ts[2..]) == c2 + (c3 + (c4 + c5));
    assert ts[1..][1..] == ts[2..];
  }

  /** Proof helper: flattens the table-by-table concatenation. */
  lemma FlattenNine<T>(a: T, b: T, c: T, d: T, e: T, f: T, g: T, h: T, i: T)
    ensures [] + ([a] + ([b] + ([c, d, e] + ([f, g] + [h, i])))) == [a, b, c, d, e, f, g, h, i]
  {
  }

  /** All nine foreign-key references of the schema, table by table (none
      for `user`): a self-loop on `comment` and two parallel `follow` to
      `user` references among them. */
  lemma DeclaredReferences()
    ensures References(Declared) ==
              [("post", "user"), ("media", "post"), ("comment", "post"), ("comment", "user"), ("comment", "comment"),
               ("like", "user"), ("like", "post"), ("follow", "user"), ("follow", "user")]
  {
    UserReferences();
    PostReferences();
    MediaReferences();
    CommentReferences();
    LikeReferences();
    FollowReferences();
    ReferencesOfSix(UserTable, PostTable, MediaTable, CommentTable, LikeTable, FollowTable);
    FlattenNine(("post", "user"), ("media", "post"), ("comment", "post"), ("comment", "user"), ("comment", "comment"),
                ("like", "user"), ("like", "post"), ("follow", "user"), ("follow", "user"));
  }

  lemma DeclaredTableNames()
    ensures TableNames(Declared) == DeclaredNames
  {
  }

  /** Six tables and nine foreign-key references. */
  lemma DeclaredCounts()
    ensures |Declared| == 6
    ensures FkCount(Declared) == 9
  {
    DeclaredReferences();
    FkCountIsReferences(Declared);
  }

  /** Per table: each of its foreign keys names a declared table. */
  lemma UserTargetsDeclared()
    ensures TargetsAmong(UserTable, DeclaredNames)
  {
    UserReferences();
    TargetsFromReferences(UserTable, DeclaredNames);
  }

  lemma PostTargetsDeclared()
    ensures TargetsAmong(PostTable, DeclaredNames)
  {
    PostReferences();
    TargetsFromReferences(PostTable, DeclaredNames);
  }

  lemma MediaTargetsDeclared()
    ensures TargetsAmong(MediaTable, DeclaredNames)
  {
    MediaReferences();
    TargetsFromReferences(MediaTable, DeclaredNames);
  }

  lemma CommentTargetsDeclared()
    ensures TargetsAmong(CommentTable, DeclaredNames)
  {
    CommentReferences();
    TargetsFromReferences(CommentTable, DeclaredNames);
  }

  lemma LikeTargetsDeclared()
    ensures TargetsAmong(LikeTable, DeclaredNames)
  {
    LikeReferences();
    TargetsFromReferences(LikeTable, DeclaredNames);
  }

  lemma FollowTargetsDeclared()
    ensures TargetsAmong(FollowTable, DeclaredNames)
  {
    FollowReferences();
    TargetsFromReferences(FollowTable, DeclaredNames);
  }

  /** Proof helper: a six-table schema resolves once each table's targets
      are among its names. */
  lemma ResolveOfSix(t0: Table, t1: Table, t2: Table, t3: Table, t4: Table, t5: Table, names: seq<string>)
    requires TableNames([t0, t1, t2, t3, t4, t5]) == names
    requires TargetsAmong(t0, names) && TargetsAmong(t1, names) && TargetsAmong(t2, names)
    requires TargetsAmong(t3, names) && TargetsAmong(t4, names) && TargetsAmong(t5, names)
    ensures ForeignKeysResolve([t0, t1, t2, t3, t4, t5])
  {
  }

  /** Every foreign key of the schema names a declared table. */
  lemma DeclaredForeignKeysResolve()
    ensures ForeignKeysResolve(Declared)
  {
    DeclaredTableNames();
    UserTargetsDeclared();
    PostTargetsDeclared();
    MediaTargetsDeclared();
    CommentTargetsDeclared();
    LikeTargetsDeclared();
    FollowTargetsDeclared();
    ResolveOfSix(UserTable, PostTable, MediaTable, CommentTable, LikeTable, FollowTable, DeclaredNames);
  }

  /** The diagram of the declared schema, under any layout: six nodes named
      after the tables in declaration order. */
  lemma DeclaredNodes(layout: Layout)
    ensures Ids(NodesOf(GraphBody(Declared, layout))) == DeclaredNames
  {
    DeclaredTableNames();
    NodeIdsAreTableNames(Declared, layout);
  }

  /** The diagram of the declared schema, under any layout: nine edges, one
      per foreign key, among them the `comment` self-loop and the two
      parallel `follow` to `user` edges. */
  lemma DeclaredEdges(layout: Layout)
    ensures EdgesOf(GraphBody(Declared, layout)) ==
              [("post", "user"), ("media", "post"), ("comment", "post"), ("comment", "user"), ("comment", "comment"),
               ("like", "user"), ("like", "post"), ("follow", "user"), ("follow", "user")]
  {
    DeclaredReferences();
    EdgesAreReferences(Declared, layout);
  }
}
