/** The record-shaped node label of a table: `{name|field\lfield\l...}`,
    where each field is a column name, followed by ` (PK)` for a
    primary-key column, followed by the two characters `\` and `l`. */
module Labels {
  import opened Wrappers
  import opened Schema

  /** Suffix marking a primary-key column. */
  const PkMarker: string := " (PK)"

  /** Graphviz's left-justified line break, backslash then `l`. */
  const LineEnd: string := "\\l"

  /** The label segment of one column. */
  function Segment(c: Column): string
  {
    c.name + (if c.pk then PkMarker else "") + LineEnd
  }

  /** The label segments of the given columns, one per column, in order. */
  function Segments(cols: seq<Column>): seq<string>
  {
    seq(|cols|, i requires 0 <= i < |cols| => Segment(cols[i]))
  }

  /** String concatenation of the parts, as Python's `''.join`. */
  function Join(parts: seq<string>): string
  {
    if parts == [] then "" else parts[0] + Join(parts[1..])
  }

  /** Sum of the lengths of the parts. */
  function TotalLength(parts: seq<string>): nat
  {
    if parts == [] then 0 else |parts[0]| + TotalLength(parts[1..])
  }

  /** The record label of a table's node. */
  function Label(t: Table): string
  {
    "{" + t.name + "|" + Join(Segments(t.columns)) + "}"
  }

  function ColumnNames(cols: seq<Column>): seq<string>
  {
    seq(|cols|, i requires 0 <= i < |cols| => cols[i].name)
  }

  function PkFlags(cols: seq<Column>): seq<bool>
  {
    seq(|cols|, i requires 0 <= i < |cols| => cols[i].pk)
  }

  /** Reads the primary-key flags back from the fields part of a label,
      given the column names it should hold: after each name comes either
      the marker and a line break, or a line break alone. */
  function ParseFields(fields: string, names: seq<string>): Option<seq<bool>>
    decreases names
  {
    if names == [] then
      if fields == "" then Some([]) else None
    else if |names[0]| <= |fields| && fields[..|names[0]|] == names[0] then
      var rest := fields[|names[0]|..];
      var marked := |PkMarker + LineEnd| <= |rest| && rest[..|PkMarker + LineEnd|] == PkMarker + LineEnd;
      var plain := |LineEnd| <= |rest| && rest[..|LineEnd|] == LineEnd;
      if !marked && !plain then None
      else
        var tail := if marked then rest[|PkMarker + LineEnd|..] else rest[|LineEnd|..];
        match ParseFields(tail, names[1..])
        case None => None
        case Some(flags) => Some([marked] + flags)
    else None
  }

  /** Reads the primary-key flags back from a whole label, given the table
      name and the column names. */
  function ParseLabel(text: string, tname: string, names: seq<string>): Option<seq<bool>>
  {
    var open := "{" + tname + "|";
    if |open| + 1 <= |text| && text[..|open|] == open && text[|text| - 1] == '}' then
      ParseFields(text[|open|..|text| - 1], names)
    else None
  }

  lemma {:induction false} JoinLength(parts: seq<string>)
    ensures |Join(parts)| == TotalLength(parts)
  {
    if parts != [] {
      JoinLength(parts[1..]);
    }
  }

  lemma {:induction false} JoinAppend(a: seq<string>, b: seq<string>)
    ensures Join(a + b) == Join(a) + Join(b)
  {
    if a == [] {
      assert a + b == b;
    } else {
      assert (a + b)[1..] == a[1..] + b;
      JoinAppend(a[1..], b);
    }
  }

  /** The k-th part sits in the joined string right after the first k parts. */
  lemma JoinAt(parts: seq<string>, k: nat)
    requires k < |parts|
    ensures TotalLength(parts[..k]) + |parts[k]| <= |Join(parts)|
    ensures Join(parts)[TotalLength(parts[..k])..TotalLength(parts[..k]) + |parts[k]|] == parts[k]
  {
    assert parts == parts[..k] + ([parts[k]] + parts[k + 1..]);
    JoinAppend(parts[..k], [parts[k]] + parts[k + 1..]);
    JoinAppend([parts[k]], parts[k + 1..]);
    assert Join([parts[k]]) == parts[k] by {
      assert [parts[k]][1..] == [];
    }
    JoinLength(parts[..k]);
    JoinLength(parts);
  }

  /** A column's segment carries the primary-key marker, once and just
      before the line break, exactly when the column is a primary key;
      otherwise it is the bare name and the line break. */
  lemma SegmentMarksPrimaryKey(cols: seq<Column>, i: nat)
    requires i < |cols|
    ensures Segments(cols)[i] == cols[i].name + PkMarker + LineEnd <==> cols[i].pk
    ensures Segments(cols)[i] == cols[i].name + LineEnd <==> !cols[i].pk
  {
    if !cols[i].pk {
      assert |Segments(cols)[i]| != |cols[i].name + PkMarker + LineEnd|;
    } else {
      assert |Segments(cols)[i]| != |cols[i].name + LineEnd|;
    }
  }

  /** The fields of a label are the column segments laid end to end: the
      segment of column i starts after those of columns 0..i-1. */
  lemma FieldsHoldSegmentsInOrder(cols: seq<Column>, i: nat)
    requires i < |cols|
    ensures var fields := Join(Segments(cols));
            var start := TotalLength(Segments(cols)[..i]);
            start + |Segment(cols[i])| <= |fields| &&
            fields[start..start + |Segment(cols[i])|] == Segment(cols[i])
  {
    JoinAt(Segments(cols), i);
  }

  /** One step of the round trip: a column's segment in front of the rest
      is read back as that column's flag in front of the rest's flags. */
  lemma ParseFieldsStep(c: Column, tail: string, names: seq<string>)
    ensures ParseFields(Segment(c) + tail, [c.name] + names) ==
              match ParseFields(tail, names)
              case None => None
              case Some(flags) => Some([c.pk] + flags)
  {
    var fields := Segment(c) + tail;
    var suffix := (if c.pk then PkMarker else "") + LineEnd + tail;
    assert fields == c.name + suffix;
    assert fields[..|c.name|] == c.name;
    var rest := fields[|c.name|..];
    assert rest == suffix;
    assert ([c.name] + names)[1..] == names;
    if c.pk {
      assert rest == (PkMarker + LineEnd) + tail;
      assert rest[..|PkMarker + LineEnd|] == PkMarker + LineEnd;
      assert rest[|PkMarker + LineEnd|..] == tail;
    } else {
      assert rest == LineEnd + tail;
      assert rest[0] == '\\';
      assert rest[..|LineEnd|] == LineEnd;
      assert rest[|LineEnd|..] == tail;
    }
  }

  /** Round trip: the primary-key flags of the columns can be read back from
      the fields text, so the marker appears on exactly the key columns. */
  lemma {:induction false} ParseFieldsOfSegments(cols: seq<Column>)
    ensures ParseFields(Join(Segments(cols)), ColumnNames(cols)) == Some(PkFlags(cols))
  {
    if cols == [] {
      assert ColumnNames(cols) == [];
    } else {
      assert Segments(cols) == [Segment(cols[0])] + Segments(cols[1..]);
      assert ColumnNames(cols) == [cols[0].name] + ColumnNames(cols[1..]);
      assert PkFlags(cols) == [cols[0].pk] + PkFlags(cols[1..]);
      ParseFieldsOfSegments(cols[1..]);
      ParseFieldsStep(cols[0], Join(Segments(cols[1..])), ColumnNames(cols[1..]));
    }
  }

  /** Round trip for a whole label: given the table and column names, the
      label of a table determines exactly its primary-key flags. */
  lemma ParseLabelOfLabel(t: Table)
    ensures ParseLabel(Label(t), t.name, ColumnNames(t.columns)) == Some(PkFlags(t.columns))
  {
    var open := "{" + t.name + "|";
    var fields := Join(Segments(t.columns));
    assert Label(t) == open + fields + "}";
    assert Label(t)[..|open|] == open;
    assert Label(t)[|open|..|Label(t)| - 1] == fields;
    ParseFieldsOfSegments(t.columns);
  }
}
