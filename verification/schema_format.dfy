/**
 * The plain-text schema listing shared by `SchemaParser.get_formatted_schema`
 * and `RAGContextProvider._format_relevant_schema`: a header, a blank line,
 * one block per table and, when there are relationships, a relationship
 * section. It is specified as a list of lines; the rendered text is those
 * lines, each followed by "\n".
 */
module SchemaFormat {
  import opened Text
  import opened OrderedMaps
  import opened SchemaModel

  /** `f"  - {column['name']} ({column['type']})"`. */
  function ColumnLine(c: Column): string
  {
    "  - " + c.name + " (" + c.typ + ")"
  }

  /** `f"  - {src}.{src_col} -> {dst}.{dst_col}"`. */
  function RelationshipLine(r: Relationship): string
  {
    "  - " + r.sourceTable + "." + r.sourceColumn + " -> " + r.targetTable + "." + r.targetColumn
  }

  function ColumnLines(columns: seq<Column>): (r: seq<string>)
    ensures |r| == |columns|
    ensures forall i :: 0 <= i < |columns| ==> r[i] == ColumnLine(columns[i])
    decreases |columns|
  {
    if columns == [] then []
    else ColumnLines(columns[..|columns| - 1]) + [ColumnLine(columns[|columns| - 1])]
  }

  /** One table's block: its name line, one line per column in order, then a blank line. */
  function TableLines(name: string, columns: seq<Column>): seq<string>
  {
    ["Table: " + name] + ColumnLines(columns) + [""]
  }

  /** The blocks of the first `n` tables, in insertion order. */
  function TablesLines(tables: Dict<seq<Column>>, n: nat): seq<string>
    requires n <= |tables.keys|
  {
    if n == 0 then []
    else TablesLines(tables, n - 1) + TableLines(tables.keys[n - 1], tables.entries[tables.keys[n - 1]])
  }

  function RelationshipLineList(rels: seq<Relationship>): (r: seq<string>)
    ensures |r| == |rels|
    ensures forall i :: 0 <= i < |rels| ==> r[i] == RelationshipLine(rels[i])
    decreases |rels|
  {
    if rels == [] then []
    else RelationshipLineList(rels[..|rels| - 1]) + [RelationshipLine(rels[|rels| - 1])]
  }

  /** The relationship section: present only when there are relationships. */
  function RelationshipLines(rels: seq<Relationship>): seq<string>
  {
    if rels == [] then [] else ["Relationships:"] + RelationshipLineList(rels)
  }

  /** The whole listing, as lines. */
  function SchemaLines(header: string, tables: Dict<seq<Column>>, rels: seq<Relationship>): seq<string>
  {
    [header, ""] + TablesLines(tables, |tables.keys|) + RelationshipLines(rels)
  }

  /** One more line appended to rendered text. */
  lemma AppendLine(text: string, done: seq<string>, line: string)
    ensures text + Unlines(done) + line + "\n" == text + Unlines(done + [line])
  {
    UnlinesSnoc(done, line);
  }

  /** Appending one table's block, line by line. */
  method AppendTable(text: string, name: string, columns: seq<Column>) returns (out: string)
    ensures out == text + Unlines(TableLines(name, columns))
  {
    ghost var lines := ColumnLines(columns);
    out := text + "Table: " + name + "\n";
    BlockStart(text, "Table: " + name, lines);
    for j := 0 to |columns|
      invariant out == BlockSoFar(text, "Table: " + name, lines, j)
    {
      BlockStep(text, "Table: " + name, lines, j);
      out := out + ColumnLine(columns[j]) + "\n";
    }
    assert lines[..|lines|] == lines;
    UnlinesSnoc(["Table: " + name] + lines, "");
    out := out + "\n";
  }

  /** Text followed by a block's heading and its first `j` lines. */
  ghost function BlockSoFar(text: string, heading: string, lines: seq<string>, j: nat): string
    requires j <= |lines|
  {
    text + Unlines([heading] + lines[..j])
  }

  lemma BlockStart(text: string, heading: string, lines: seq<string>)
    ensures BlockSoFar(text, heading, lines, 0) == text + heading + "\n"
  {
    assert [heading] + lines[..0] == [heading];
    UnlinesSnoc([], heading);
  }

  lemma BlockStep(text: string, heading: string, lines: seq<string>, j: nat)
    requires j < |lines|
    ensures BlockSoFar(text, heading, lines, j + 1) == BlockSoFar(text, heading, lines, j) + lines[j] + "\n"
  {
    assert [heading] + lines[..j + 1] == [heading] + lines[..j] + [lines[j]];
    AppendLine(text, [heading] + lines[..j], lines[j]);
  }

  /** Appending the relationship section, line by line. */
  method AppendRelationships(text: string, rels: seq<Relationship>) returns (out: string)
    ensures out == text + Unlines(RelationshipLines(rels))
  {
    out := text;
    if rels != [] {
      ghost var lines := RelationshipLineList(rels);
      out := out + "Relationships:\n";
      BlockStart(text, "Relationships:", lines);
      for i := 0 to |rels|
        invariant out == BlockSoFar(text, "Relationships:", lines, i)
      {
        BlockStep(text, "Relationships:", lines, i);
        out := out + RelationshipLine(rels[i]) + "\n";
      }
      assert lines[..|lines|] == lines;
    }
  }

  /** The listing built the way both formatters build it: by appending to a string in loops. */
  method RenderSchema(header: string, tables: Dict<seq<Column>>, rels: seq<Relationship>) returns (text: string)
    ensures text == Unlines(SchemaLines(header, tables, rels))
  {
    text := header + "\n\n";
    TablesStart(header, tables);
    for i := 0 to |tables.keys|
      invariant text == TablesSoFar(header, tables, i)
    {
      var name := tables.keys[i];
      TablesStep(header, tables, i);
      text := AppendTable(text, name, tables.entries[name]);
    }
    text := AppendRelationships(text, rels);
    TablesThenRelationships(header, tables, rels);
  }

  /** The listing opens with the header and a blank line. */
  lemma TablesStart(header: string, tables: Dict<seq<Column>>)
    ensures TablesSoFar(header, tables, 0) == header + "\n\n"
  {
    assert [header, ""] + TablesLines(tables, 0) == [header, ""];
    assert Unlines([header, ""]) == header + "\n\n" by {
      UnlinesSnoc([header], "");
      UnlinesSnoc([], header);
    }
  }

  /** The listing closes with the relationship section. */
  lemma TablesThenRelationships(header: string, tables: Dict<seq<Column>>, rels: seq<Relationship>)
    ensures Unlines(SchemaLines(header, tables, rels))
      == TablesSoFar(header, tables, |tables.keys|) + Unlines(RelationshipLines(rels))
  {
    UnlinesAppend([header, ""] + TablesLines(tables, |tables.keys|), RelationshipLines(rels));
  }

  /** The listing rendered up to the first `i` tables. */
  ghost function TablesSoFar(header: string, tables: Dict<seq<Column>>, i: nat): string
    requires i <= |tables.keys|
  {
    Unlines([header, ""] + TablesLines(tables, i))
  }

  lemma TablesStep(header: string, tables: Dict<seq<Column>>, i: nat)
    requires i < |tables.keys|
    ensures TablesSoFar(header, tables, i + 1)
      == TablesSoFar(header, tables, i) + Unlines(TableLines(tables.keys[i], tables.entries[tables.keys[i]]))
  {
    var block := TableLines(tables.keys[i], tables.entries[tables.keys[i]]);
    UnlinesAppend([header, ""] + TablesLines(tables, i), block);
    assert [header, ""] + TablesLines(tables, i) + block == [header, ""] + TablesLines(tables, i + 1);
  }

  /** No table name, column or relationship field holds a line break. */
  ghost predicate SingleLineSchema(tables: Dict<seq<Column>>, rels: seq<Relationship>)
  {
    && (forall k :: k in tables.entries ==>
          SingleLine(k) && forall c :: c in tables.entries[k] ==> SingleLine(c.name) && SingleLine(c.typ))
    && (forall r :: r in rels ==>
          SingleLine(r.sourceTable) && SingleLine(r.sourceColumn) && SingleLine(r.targetTable) && SingleLine(r.targetColumn))
  }

  lemma ColumnLineSingle(c: Column)
    requires SingleLine(c.name) && SingleLine(c.typ)
    ensures SingleLine(ColumnLine(c))
  {
    SingleLineConcat("  - ", c.name);
    SingleLineConcat("  - " + c.name, " (");
    SingleLineConcat("  - " + c.name + " (", c.typ);
    SingleLineConcat("  - " + c.name + " (" + c.typ, ")");
  }

  lemma RelationshipLineSingle(r: Relationship)
    requires SingleLine(r.sourceTable) && SingleLine(r.sourceColumn) && SingleLine(r.targetTable) && SingleLine(r.targetColumn)
    ensures SingleLine(RelationshipLine(r))
  {
    SingleLineConcat("  - ", r.sourceTable);
    SingleLineConcat("  - " + r.sourceTable, ".");
    SingleLineConcat("  - " + r.sourceTable + ".", r.sourceColumn);
    SingleLineConcat("  - " + r.sourceTable + "." + r.sourceColumn, " -> ");
    SingleLineConcat("  - " + r.sourceTable + "." + r.sourceColumn + " -> ", r.targetTable);
    SingleLineConcat("  - " + r.sourceTable + "." + r.sourceColumn + " -> " + r.targetTable, ".");
    SingleLineConcat("  - " + r.sourceTable + "." + r.sourceColumn + " -> " + r.targetTable + ".", r.targetColumn);
  }

  lemma {:induction false} TablesLinesSingle(tables: Dict<seq<Column>>, n: nat)
    requires n <= |tables.keys|
    requires forall k :: k in tables.entries ==>
      SingleLine(k) && forall c :: c in tables.entries[k] ==> SingleLine(c.name) && SingleLine(c.typ)
    ensures forall l :: l in TablesLines(tables, n) ==> SingleLine(l)
  {
    if n > 0 {
      TablesLinesSingle(tables, n - 1);
      var name := tables.keys[n - 1];
      SingleLineConcat("Table: ", name);
      forall c | c in tables.entries[name] ensures SingleLine(ColumnLine(c)) {
        ColumnLineSingle(c);
      }
    }
  }

  lemma RelationshipLinesSingle(rels: seq<Relationship>)
    requires forall r :: r in rels ==>
      SingleLine(r.sourceTable) && SingleLine(r.sourceColumn) && SingleLine(r.targetTable) && SingleLine(r.targetColumn)
    ensures forall l :: l in RelationshipLines(rels) ==> SingleLine(l)
  {
    if rels != [] {
      var list := RelationshipLineList(rels);
      forall i | 0 <= i < |list| ensures SingleLine(list[i]) {
        assert rels[i] in rels;
        RelationshipLineSingle(rels[i]);
      }
      assert SingleLine("Relationships:");
      forall l | l in RelationshipLines(rels) ensures SingleLine(l) {
        if l != "Relationships:" {
          var i :| 0 <= i < |list| && list[i] == l;
        }
      }
    }
  }

  /** Every line of the listing is a single line when the header and the schema's names are. */
  lemma SchemaLinesSingle(header: string, tables: Dict<seq<Column>>, rels: seq<Relationship>)
    requires SingleLine(header)
    requires SingleLineSchema(tables, rels)
    ensures forall l :: l in SchemaLines(header, tables, rels) ==> SingleLine(l)
  {
    TablesLinesSingle(tables, |tables.keys|);
    RelationshipLinesSingle(rels);
    assert SingleLine("");
  }

  /**
   * Splitting the rendered listing into lines gives back exactly its lines,
   * when the header and the schema's names hold no line break: the text is
   * the header line, a blank line, each table's block and the relationship section.
   */
  lemma RenderedLines(header: string, tables: Dict<seq<Column>>, rels: seq<Relationship>)
    requires SingleLine(header)
    requires SingleLineSchema(tables, rels)
    ensures SplitLines(Unlines(SchemaLines(header, tables, rels))) == SchemaLines(header, tables, rels)
  {
    SchemaLinesSingle(header, tables, rels);
    SplitUnlines(SchemaLines(header, tables, rels));
  }

  /** Every line of the table blocks is a "Table: " line, a "  - " line or blank. */
  lemma {:induction false} TablesLinesShape(tables: Dict<seq<Column>>, n: nat)
    requires n <= |tables.keys|
    ensures forall l :: l in TablesLines(tables, n) ==> l == "" || StartsWith(l, "Table: ") || StartsWith(l, "  - ")
  {
    if n > 0 {
      TablesLinesShape(tables, n - 1);
      var name := tables.keys[n - 1];
      assert StartsWith("Table: " + name, "Table: ");
      forall c: Column ensures StartsWith(ColumnLine(c), "  - ") {
        assert ColumnLine(c)[..4] == "  - ";
      }
    }
  }

  /** The listing has a "Relationships:" line exactly when there are relationships. */
  lemma RelationshipsSectionIff(header: string, tables: Dict<seq<Column>>, rels: seq<Relationship>)
    requires header != "Relationships:"
    ensures "Relationships:" in SchemaLines(header, tables, rels) <==> rels != []
  {
    TablesLinesShape(tables, |tables.keys|);
    var lines := SchemaLines(header, tables, rels);
    if rels == [] {
      assert lines == [header, ""] + TablesLines(tables, |tables.keys|);
      forall l | l in TablesLines(tables, |tables.keys|) ensures l != "Relationships:" {
        if StartsWith(l, "Table: ") || StartsWith(l, "  - ") { assert l[..4][0] == l[0]; }
      }
    } else {
      assert lines[2 + |TablesLines(tables, |tables.keys|)|] == "Relationships:";
    }
  }

  /** The listing opens with the header line and a blank line. */
  lemma RenderedStartsWithHeader(header: string, tables: Dict<seq<Column>>, rels: seq<Relationship>)
    ensures StartsWith(Unlines(SchemaLines(header, tables, rels)), header + "\n\n")
  {
    var rest := TablesLines(tables, |tables.keys|) + RelationshipLines(rels);
    assert SchemaLines(header, tables, rels) == [header, ""] + rest;
    HeadingStartsText(header, rest);
  }

  /** Lines opening with a heading and a blank line render as text opening with the heading and a blank line. */
  lemma HeadingStartsText(header: string, rest: seq<string>)
    ensures StartsWith(Unlines([header, ""] + rest), header + "\n\n")
  {
    UnlinesAppend([header, ""], rest);
    assert Unlines([header, ""]) == header + "\n\n" by {
      UnlinesSnoc([header], "");
      UnlinesSnoc([], header);
    }
    StartsWithConcat(header + "\n\n", Unlines(rest));
  }

  /** With no tables and no relationships the listing is the header line and a blank line, nothing else. */
  lemma EmptyListingIsHeader(header: string, tables: Dict<seq<Column>>, rels: seq<Relationship>)
    requires tables.keys == [] && rels == []
    ensures Unlines(SchemaLines(header, tables, rels)) == header + "\n\n"
  {
    assert SchemaLines(header, tables, rels) == [header, ""];
    UnlinesSnoc([header], "");
    UnlinesSnoc([], header);
  }
}
